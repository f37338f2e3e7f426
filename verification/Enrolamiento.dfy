/** One-use enrolment tokens and the credential they rotate (app/services/enrollment.py,
    app/repositories/enrollment_token.py, `rotate` and `revoke` of app/services/gateway_config.py). */
module Enrolamiento {
  import opened Wrappers
  import opened Ajustes
  import Actualizacion
  import ConfigFlota

  /** Eight hours, in microseconds. */
  const VIGENCIA: int := 8 * 60 * 60_000_000

  datatype Token = Token(gateway: nat, expiraEn: int, usadoEn: Option<int>, usadoDesde: Option<string>)

  /** What a gateway's row has to do with enrolment: its uuid and the hash of its credential. */
  datatype Ficha = Ficha(uuid: string, credencial: Option<string>)

  /** The two tables: tokens by the hash they are looked up with, and gateways. */
  datatype Base = Base(tokens: map<string, Token>, gateways: map<nat, Ficha>)

  /** The library functions: a lookup hash, a salted hash with its verification, and the box the
      secret settings are kept in. */
  datatype Cripto = Cripto(huella: string -> string, resumen: (string, string) -> string, verifica: (string, string) -> bool,
                           caja: Caja)

  ghost predicate HashConfiable(c: Cripto) {
    && (forall x: string, y: string :: c.huella(x) == c.huella(y) ==> x == y)
    && (forall x: string, y: string, sal: string :: c.verifica(x, c.resumen(y, sal)) <==> x == y)
  }

  predicate Vencido(t: Token, ahora: int) { t.expiraEn <= ahora }

  predicate Vivo(t: Token, ahora: int) { t.usadoEn.None? && !Vencido(t, ahora) }

  // --- release and environment ----------------------------------------------

  datatype ReleaseRef = ReleaseRef(version: string, url: string, sha256: string)

  /** The settings as a request finds them: the table, and its keys in the order they are listed. */
  datatype Lectura = Lectura(tabla: Tabla, claves: seq<string>)

  type Panel = p: Lectura | Listado(p.tabla, p.claves) witness Lectura(map[], [])

  const INSTALLER_URL := "GATEWAY_INSTALLER_URL"
  const RELEASE_VERSION := "GATEWAY_RELEASE_VERSION"
  const RELEASE_SHA256 := "GATEWAY_RELEASE_SHA256"

  /** Which software a new device installs; nothing chosen stops the enrolment. */
  function Release(tabla: Tabla): Result<ReleaseRef, Error> {
    var version :- ConfigFlota.Valor(tabla, RELEASE_VERSION);
    var sha256 :- ConfigFlota.Valor(tabla, RELEASE_SHA256);
    var base :- ConfigFlota.Valor(tabla, ConfigFlota.BASE_URL);
    if version == "" || sha256 == "" then Err(ReglaDeNegocio)
    else Ok(ReleaseRef(version, Actualizacion.PaqueteUrl(base, version), sha256))
  }

  /** A version was chosen: both of its settings are there with a text, and none of the three read
      is a secret. */
  predicate HayRelease(tabla: Tabla) {
    && RELEASE_VERSION in tabla && tabla[RELEASE_VERSION].valor != "" && !tabla[RELEASE_VERSION].esSecreto
    && RELEASE_SHA256 in tabla && tabla[RELEASE_SHA256].valor != "" && !tabla[RELEASE_SHA256].esSecreto
    && (ConfigFlota.BASE_URL in tabla ==> !tabla[ConfigFlota.BASE_URL].esSecreto)
  }

  const GATEWAY_UUID := "GATEWAY_UUID"
  const GATEWAY_CREDENTIAL := "GATEWAY_CREDENTIAL"

  predicate EsIdentidad(clave: string) { clave == GATEWAY_UUID || clave == GATEWAY_CREDENTIAL }

  function SinIdentidad(filas: seq<EnvEntry>): seq<EnvEntry> {
    if filas == [] then []
    else
      var n := |filas| - 1;
      if EsIdentidad(filas[n].clave) then SinIdentidad(filas[..n]) else SinIdentidad(filas[..n]) + [filas[n]]
  }

  function Env(uuid: string, credencial: string, filas: seq<EnvEntry>): seq<EnvEntry> {
    [EnvEntry(GATEWAY_UUID, uuid, Identidad), EnvEntry(GATEWAY_CREDENTIAL, credencial, Identidad)] + SinIdentidad(filas)
  }

  /** `_env`. */
  method ArmarEnv(uuid: string, credencial: string, filas: seq<EnvEntry>) returns (entradas: seq<EnvEntry>)
    ensures entradas == Env(uuid, credencial, filas)
  {
    entradas := [EnvEntry(GATEWAY_UUID, uuid, Identidad), EnvEntry(GATEWAY_CREDENTIAL, credencial, Identidad)];
    ghost var cabeza := entradas;
    for i := 0 to |filas|
      invariant entradas == cabeza + SinIdentidad(filas[..i])
    {
      assert filas[..i + 1][..i] == filas[..i];
      if !EsIdentidad(filas[i].clave) {
        entradas := entradas + [filas[i]];
      }
    }
    assert filas[..|filas|] == filas;
  }

  /** The identity goes out with the values of this exchange, whatever the table holds; every
      other row goes out exactly when it is in the table. */
  lemma EnvLlevaIdentidad(uuid: string, credencial: string, filas: seq<EnvEntry>, e: EnvEntry)
    ensures e in Env(uuid, credencial, filas) <==>
      || e == EnvEntry(GATEWAY_UUID, uuid, Identidad)
      || e == EnvEntry(GATEWAY_CREDENTIAL, credencial, Identidad)
      || (e in filas && !EsIdentidad(e.clave))
  {
    SinIdentidadFiltra(filas, e);
  }

  predicate UnaVez(es: seq<EnvEntry>) {
    forall i, j :: 0 <= i < j < |es| ==> es[i].clave != es[j].clave
  }

  lemma {:induction false} SinIdentidadUnaVez(filas: seq<EnvEntry>)
    requires UnaVez(filas)
    ensures UnaVez(SinIdentidad(filas))
  {
    if filas != [] {
      var n := |filas| - 1;
      SinIdentidadUnaVez(filas[..n]);
      forall e | e in SinIdentidad(filas[..n])
        ensures e.clave != filas[n].clave
      {
        SinIdentidadFiltra(filas[..n], e);
      }
    }
  }

  /** No variable goes out twice, the identity included. */
  lemma EnvUnaVez(uuid: string, credencial: string, filas: seq<EnvEntry>)
    requires UnaVez(filas)
    ensures UnaVez(Env(uuid, credencial, filas))
  {
    SinIdentidadUnaVez(filas);
    forall e | e in SinIdentidad(filas)
      ensures !EsIdentidad(e.clave)
    {
      SinIdentidadFiltra(filas, e);
    }
  }

  lemma {:induction false} SinIdentidadFiltra(filas: seq<EnvEntry>, e: EnvEntry)
    ensures e in SinIdentidad(filas) <==> e in filas && !EsIdentidad(e.clave)
  {
    if filas != [] {
      var n := |filas| - 1;
      SinIdentidadFiltra(filas[..n], e);
      assert filas == filas[..n] + [filas[n]];
    }
  }

  // --- requests on the tables -----------------------------------------------

  /** `expire_pending`. */
  function Vencer(ts: map<string, Token>, gateway: nat, ahora: int): map<string, Token> {
    map h | h in ts ::
      if ts[h].gateway == gateway && Vivo(ts[h], ahora) then ts[h].(expiraEn := ahora) else ts[h]
  }

  datatype Emitido = Emitido(token: string, expiraEn: int, comando: string)

  function Comando(url: string, token: string): string { "curl -fsSL " + url + " | sudo EMS_TOKEN=" + token + " bash" }

  datatype Permiso = Permiso(escribe: bool, ve: bool)

  /** `issue`, for a token drawn at random. */
  function Emitir(b: Base, c: Cripto, p: Permiso, gateway: nat, token: string, tabla: Tabla, ahora: int)
    : (Base, Result<Emitido, Error>)
  {
    if !p.escribe then (b, Err(NoAutorizado))
    else if gateway !in b.gateways || !p.ve then (b, Err(NoEncontrado))
    else if c.huella(token) in b.tokens then (b, Err(Interno))
    else match ValorPublico(tabla, INSTALLER_URL)
    case Err(e) => (b, Err(e))
    case Ok(url) =>
      var nuevo := Token(gateway, ahora + VIGENCIA, None, None);
      (b.(tokens := Vencer(b.tokens, gateway, ahora)[c.huella(token) := nuevo]),
       Ok(Emitido(token, ahora + VIGENCIA, Comando(url, token))))
  }

  /** The answer. The credential travels in the environment and nowhere else. */
  datatype Canje = Canje(gateway: nat, entorno: seq<EnvEntry>, release: ReleaseRef)

  function ConCredencial(gs: map<nat, Ficha>, gateway: nat, resumen: Option<string>): map<nat, Ficha>
    requires gateway in gs
  {
    gs[gateway := gs[gateway].(credencial := resumen)]
  }

  /** `exchange`. The credential and its salt are drawn at random. */
  function Canjear(b: Base, c: Cripto, token: string, desde: string, ahora: int, panel: Panel, credencial: string, sal: string)
    : (Base, Result<Canje, Error>)
  {
    var h := c.huella(token);
    if h !in b.tokens || !Vivo(b.tokens[h], ahora) then (b, Err(NoAutenticado))
    else if b.tokens[h].gateway !in b.gateways then (b, Err(NoEncontrado))
    else match Release(panel.tabla)
    case Err(e) => (b, Err(e))
    case Ok(release) =>
      match ParaUnGateway(panel.tabla, c.caja, panel.claves)
      case Err(e) => (b, Err(e))
      case Ok(filas) =>
        var g := b.tokens[h].gateway;
        (Base(b.tokens[h := b.tokens[h].(usadoEn := Some(ahora), usadoDesde := Some(desde))],
              ConCredencial(b.gateways, g, Some(c.resumen(credencial, sal)))),
         Ok(Canje(g, Env(b.gateways[g].uuid, credencial, filas), release)))
  }

  function Rotar(b: Base, c: Cripto, p: Permiso, gateway: nat, credencial: string, sal: string): (Base, Result<(), Error>) {
    if !p.escribe then (b, Err(NoAutorizado))
    else if gateway !in b.gateways || !p.ve then (b, Err(NoEncontrado))
    else (b.(gateways := ConCredencial(b.gateways, gateway, Some(c.resumen(credencial, sal)))), Ok(()))
  }

  function Revocar(b: Base, p: Permiso, gateway: nat): (Base, Result<(), Error>) {
    if !p.escribe then (b, Err(NoAutorizado))
    else if gateway !in b.gateways || !p.ve then (b, Err(NoEncontrado))
    else (b.(gateways := ConCredencial(b.gateways, gateway, None)), Ok(()))
  }

  /** `issue_token`: whether a device that presents this credential gets in. */
  predicate Entra(b: Base, c: Cripto, gateway: nat, credencial: string) {
    gateway in b.gateways && b.gateways[gateway].credencial.Some?
    && c.verifica(credencial, b.gateways[gateway].credencial.value)
  }

  /** The service over its two tables. A request that fails after writing is rolled back. */
  class EnrollmentService {
    const cripto: Cripto
    var tokens: map<string, Token>
    var gateways: map<nat, Ficha>

    constructor (cripto: Cripto, gateways: map<nat, Ficha>)
      ensures this.cripto == cripto && Tablas() == Base(map[], gateways)
    {
      this.cripto, this.tokens, this.gateways := cripto, map[], gateways;
    }

    function Tablas(): Base
      reads this
    {
      Base(tokens, gateways)
    }

    method ExpirePending(gateway: nat, ahora: int)
      modifies `tokens
      ensures tokens == Vencer(old(tokens), gateway, ahora)
    {
      tokens := map h | h in tokens ::
        if tokens[h].gateway == gateway && tokens[h].usadoEn.None? && tokens[h].expiraEn > ahora
        then tokens[h].(expiraEn := ahora) else tokens[h];
    }

    method Issue(p: Permiso, gateway: nat, token: string, tabla: Tabla, ahora: int)
      returns (r: Result<Emitido, Error>)
      modifies this
      ensures (Tablas(), r) == Emitir(old(Tablas()), cripto, p, gateway, token, tabla, ahora)
    {
      if !p.escribe { return Err(NoAutorizado); }
      if gateway !in gateways || !p.ve { return Err(NoEncontrado); }
      var previos := tokens;
      ExpirePending(gateway, ahora);
      var h := cripto.huella(token);
      if h in tokens {
        tokens := previos;
        return Err(Interno);
      }
      var expiraEn := ahora + VIGENCIA;
      tokens := tokens[h := Token(gateway, expiraEn, None, None)];
      var url := ValorPublico(tabla, INSTALLER_URL);
      if url.Err? {
        tokens := previos;
        return Err(url.error);
      }
      r := Ok(Emitido(token, expiraEn, Comando(url.value, token)));
    }

    /** `rotate`. */
    method Rotate(gateway: nat, credencial: string, sal: string)
      requires gateway in gateways
      modifies `gateways
      ensures gateways == ConCredencial(old(gateways), gateway, Some(cripto.resumen(credencial, sal)))
    {
      gateways := gateways[gateway := gateways[gateway].(credencial := Some(cripto.resumen(credencial, sal)))];
    }

    /** `issue` of the credential service: the same rotation, for whoever may write. */
    method IssueCredential(p: Permiso, gateway: nat, credencial: string, sal: string) returns (r: Result<(), Error>)
      modifies `gateways
      ensures (Tablas(), r) == Rotar(old(Tablas()), cripto, p, gateway, credencial, sal)
    {
      if !p.escribe { return Err(NoAutorizado); }
      if gateway !in gateways || !p.ve { return Err(NoEncontrado); }
      Rotate(gateway, credencial, sal);
      r := Ok(());
    }

    method Revoke(p: Permiso, gateway: nat) returns (r: Result<(), Error>)
      modifies `gateways
      ensures (Tablas(), r) == Revocar(old(Tablas()), p, gateway)
    {
      if !p.escribe { return Err(NoAutorizado); }
      if gateway !in gateways || !p.ve { return Err(NoEncontrado); }
      gateways := gateways[gateway := gateways[gateway].(credencial := None)];
      r := Ok(());
    }

    method Exchange(token: string, desde: string, ahora: int, panel: Panel, credencial: string, sal: string)
      returns (r: Result<Canje, Error>)
      modifies this
      ensures (Tablas(), r) == Canjear(old(Tablas()), cripto, token, desde, ahora, panel, credencial, sal)
    {
      var h := cripto.huella(token);
      if h !in tokens { return Err(NoAutenticado); }
      var fila := tokens[h];
      if fila.usadoEn.Some? || Vencido(fila, ahora) { return Err(NoAutenticado); }
      if fila.gateway !in gateways { return Err(NoEncontrado); }
      var release := Release(panel.tabla);
      if release.Err? { return Err(release.error); }
      var tokensPrevios, gatewaysPrevios := tokens, gateways;
      tokens := tokens[h := fila.(usadoEn := Some(ahora), usadoDesde := Some(desde))];
      Rotate(fila.gateway, credencial, sal);
      var filas := ParaUnGateway(panel.tabla, cripto.caja, panel.claves);
      if filas.Err? {
        tokens, gateways := tokensPrevios, gatewaysPrevios;
        return Err(filas.error);
      }
      var entorno := ArmarEnv(gateways[fila.gateway].uuid, credencial, filas.value);
      r := Ok(Canje(fila.gateway, entorno, release.value));
    }
  }

  // --- one exchange ---------------------------------------------------------

  /** Every row that goes out to a device can be read: no secret of the panel's is undecipherable. */
  predicate TodoSeLee(tabla: Tabla, caja: Caja) {
    forall k :: k in tabla && tabla[k].esSecreto && tabla[k].valor != "" && !tabla[k].origen.Equipo? ==>
      caja.configurada && caja.descifra(tabla[k].valor).Some?
  }

  lemma ReleaseSii(tabla: Tabla)
    ensures Release(tabla).Ok? <==> HayRelease(tabla)
    ensures Release(tabla).Err? ==> Release(tabla).error == ReglaDeNegocio
  {}

  lemma ParaUnGatewaySii(panel: Panel, caja: Caja)
    ensures ParaUnGateway(panel.tabla, caja, panel.claves).Ok? <==> TodoSeLee(panel.tabla, caja)
  {}

  /** What issuing a token does. It goes ahead exactly for a caller that may write and sees the
      gateway, with a token not drawn before and the installer's address readable. Then the answer is
      the token, the instant eight hours on, and the command with both texts; the token's row is new,
      unspent and expires at that instant; every other live token of the gateway expires now; and no
      other row changes. */
  lemma EmitirSii(b: Base, c: Cripto, p: Permiso, gateway: nat, token: string, tabla: Tabla, ahora: int)
    ensures var (d, r) := Emitir(b, c, p, gateway, token, tabla, ahora);
      var h, expira := c.huella(token), ahora + 8 * 3600 * 1_000_000;
      && (r.Ok? <==>
            && p.escribe && p.ve && gateway in b.gateways && h !in b.tokens
            && INSTALLER_URL in tabla && !tabla[INSTALLER_URL].esSecreto)
      && (r.Err? ==>
            && d == b
            && r.error == if !p.escribe then NoAutorizado
                          else if gateway !in b.gateways || !p.ve then NoEncontrado
                          else if h in b.tokens then Interno
                          else if INSTALLER_URL !in tabla then NoEncontrado else ReglaDeNegocio)
      && (r.Ok? ==>
            && r.value.token == token && r.value.expiraEn == expira
            && r.value.comando == "curl -fsSL " + tabla[INSTALLER_URL].valor + " | sudo EMS_TOKEN=" + token + " bash"
            && d.gateways == b.gateways && d.tokens.Keys == b.tokens.Keys + {h}
            && d.tokens[h] == Token(gateway, expira, None, None)
            && forall k :: k in b.tokens ==>
                 d.tokens[k] ==
                   if b.tokens[k].gateway == gateway && b.tokens[k].usadoEn.None? && ahora < b.tokens[k].expiraEn
                   then b.tokens[k].(expiraEn := ahora) else b.tokens[k])
  {}

  /** Which version a successful exchange names: the two texts of its settings, and the address of its
      package under the third. */
  lemma CanjeEntregaLaVersion(b: Base, c: Cripto, token: string, desde: string, ahora: int, panel: Panel, credencial: string, sal: string)
    requires Canjear(b, c, token, desde, ahora, panel, credencial, sal).1.Ok?
    ensures var t, release := panel.tabla, Canjear(b, c, token, desde, ahora, panel, credencial, sal).1.value.release;
      && RELEASE_VERSION in t && release.version == t[RELEASE_VERSION].valor
      && RELEASE_SHA256 in t && release.sha256 == t[RELEASE_SHA256].valor
      && Actualizacion.EsDireccionDe(release.url, ConfigFlota.TextoDe(t, ConfigFlota.BASE_URL), release.version)
  {
    var t := panel.tabla;
    ReleaseSii(t);
    Actualizacion.PaqueteUrlSii(ConfigFlota.TextoDe(t, ConfigFlota.BASE_URL), t[RELEASE_VERSION].valor);
  }

  /** All or nothing. It succeeds exactly for a live token, with a version chosen and every setting
      readable; then that token is spent, only the new credential gets in, and nothing else is
      touched. Any failure leaves both tables as they were, and only a token that is not live is
      told so. */
  lemma CanjeTodoONada(b: Base, c: Cripto, token: string, desde: string, ahora: int, panel: Panel, credencial: string, sal: string)
    requires HashConfiable(c)
    requires forall h :: h in b.tokens ==> b.tokens[h].gateway in b.gateways
    ensures var (d, r) := Canjear(b, c, token, desde, ahora, panel, credencial, sal);
      var h := c.huella(token);
      && (r.Ok? <==>
            && h in b.tokens && b.tokens[h].usadoEn.None? && ahora < b.tokens[h].expiraEn
            && HayRelease(panel.tabla) && TodoSeLee(panel.tabla, c.caja))
      && (r.Err? ==>
            d == b && r.error == if h in b.tokens && b.tokens[h].usadoEn.None? && ahora < b.tokens[h].expiraEn then ReglaDeNegocio else NoAutenticado)
      && (r.Ok? ==>
            var g := b.tokens[h].gateway;
            && r.value.gateway == g && d.tokens[h] == b.tokens[h].(usadoEn := Some(ahora), usadoDesde := Some(desde))
            && d.gateways.Keys == b.gateways.Keys
            && (forall k :: k in b.tokens && k != h ==> k in d.tokens && d.tokens[k] == b.tokens[k])
            && (forall k :: k in b.gateways ==> d.gateways[k].uuid == b.gateways[k].uuid)
            && (forall x: string :: Entra(d, c, g, x) <==> x == credencial)
            && (forall k: nat, x: string :: k != g ==> (Entra(d, c, k, x) <==> Entra(b, c, k, x))))
  {
    ReleaseSii(panel.tabla);
    ParaUnGatewaySii(panel, c.caja);
  }

  /** What a successful exchange hands over. No variable goes out twice; the one credential in it is
      the only text that gets in from then on; the uuid is the gateway's; and every other setting of
      the table, and nothing else, goes out as a device is to read it. */
  lemma CanjeEntregaElEntorno(b: Base, c: Cripto, token: string, desde: string, ahora: int, panel: Panel, credencial: string, sal: string)
    requires HashConfiable(c) && Canjear(b, c, token, desde, ahora, panel, credencial, sal).1.Ok?
    ensures var (d, r) := Canjear(b, c, token, desde, ahora, panel, credencial, sal);
      var env, g := r.value.entorno, r.value.gateway;
      && UnaVez(env)
      && (forall v: string, o: Origen :: EnvEntry(GATEWAY_CREDENTIAL, v, o) in env <==> o.Identidad? && Entra(d, c, g, v))
      && (forall v: string, o: Origen :: EnvEntry(GATEWAY_UUID, v, o) in env <==> o.Identidad? && v == b.gateways[g].uuid)
      && (forall e: EnvEntry :: !EsIdentidad(e.clave) ==>
            (e in env <==> e.clave in panel.tabla && e.origen == panel.tabla[e.clave].origen
                           && ValorEnClaro(c.caja, panel.tabla[e.clave]) == Ok(e.valor)))
  {
    var (d, r) := Canjear(b, c, token, desde, ahora, panel, credencial, sal);
    var filas := ParaUnGateway(panel.tabla, c.caja, panel.claves).value;
    var uuid := b.gateways[r.value.gateway].uuid;
    EnvUnaVez(uuid, credencial, filas);
    forall e: EnvEntry
      ensures e in r.value.entorno <==>
        || e == EnvEntry(GATEWAY_UUID, uuid, Identidad) || e == EnvEntry(GATEWAY_CREDENTIAL, credencial, Identidad)
        || (e in filas && !EsIdentidad(e.clave))
      ensures e in filas <==>
        e.clave in panel.tabla && e.origen == panel.tabla[e.clave].origen && ValorEnClaro(c.caja, panel.tabla[e.clave]) == Ok(e.valor)
    {
      EnvLlevaIdentidad(uuid, credencial, filas, e);
      FilasDelPanel(panel, c.caja, e);
    }
  }

  lemma FilasDelPanel(panel: Panel, caja: Caja, e: EnvEntry)
    requires ParaUnGateway(panel.tabla, caja, panel.claves).Ok?
    ensures e in ParaUnGateway(panel.tabla, caja, panel.claves).value <==>
      e.clave in panel.tabla && e.origen == panel.tabla[e.clave].origen && ValorEnClaro(caja, panel.tabla[e.clave]) == Ok(e.valor)
  {
    var filas := ParaUnGateway(panel.tabla, caja, panel.claves).value;
    if e.clave in panel.tabla {
      var i :| 0 <= i < |panel.claves| && panel.claves[i] == e.clave;
      assert filas[i].clave == e.clave;
    }
  }

  /** On a table that the settings service keeps, an exchange never fails for an unreadable secret. */
  lemma LosAjustesNoFrenanElCanje(panel: Panel, caja: Caja, m: Mapa)
    requires Ajustes.Confiable(caja) && Refina(panel.tabla, caja, m)
    ensures TodoSeLee(panel.tabla, caja)
  {
    forall k | k in panel.tabla
      ensures EnClaro(caja, panel.tabla[k]).Ok?
    {
      RepresentaSeLee(caja, panel.tabla[k], m[k]);
    }
  }

  /** A new credential takes the old one back at once, and revoking leaves no way in, for a caller that
      may write and sees the gateway; for another, nothing changes. Neither touches another gateway or
      any token. */
  lemma RotarYRevocar(b: Base, c: Cripto, p: Permiso, gateway: nat, credencial: string, sal: string)
    requires HashConfiable(c)
    ensures var puede := p.escribe && p.ve && gateway in b.gateways;
      var (rotada, r) := Rotar(b, c, p, gateway, credencial, sal);
      var (revocada, q) := Revocar(b, p, gateway);
      && (r.Ok? <==> puede) && (q.Ok? <==> puede) && (!puede ==> rotada == b && revocada == b)
      && (!puede ==> r.error == q.error && r.error == if p.escribe then NoEncontrado else NoAutorizado)
      && rotada.tokens == b.tokens && revocada.tokens == b.tokens
      && (puede ==>
            && (forall x: string :: Entra(rotada, c, gateway, x) <==> x == credencial)
            && (forall x: string :: !Entra(revocada, c, gateway, x)))
      && (forall k: nat, x: string :: k != gateway ==>
            && (Entra(rotada, c, k, x) <==> Entra(b, c, k, x)) && (Entra(revocada, c, k, x) <==> Entra(b, c, k, x)))
  {}

  // --- runs -----------------------------------------------------------------

  datatype Peticion =
    | PideToken(p: Permiso, gateway: nat, token: string, tabla: Tabla, t: int)
    | PideCanje(token: string, desde: string, panel: Panel, credencial: string, sal: string, t: int)
    | PideRotar(p: Permiso, gateway: nat, credencial: string, sal: string, t: int)
    | PideRevocar(p: Permiso, gateway: nat, t: int)

  function Paso(b: Base, c: Cripto, e: Peticion): Base {
    match e
    case PideToken(p, g, token, tabla, t) => Emitir(b, c, p, g, token, tabla, t).0
    case PideCanje(token, desde, panel, credencial, sal, t) => Canjear(b, c, token, desde, t, panel, credencial, sal).0
    case PideRotar(p, g, credencial, sal, _) => Rotar(b, c, p, g, credencial, sal).0
    case PideRevocar(p, g, _) => Revocar(b, p, g).0
  }

  /** The request is an exchange of `token` that succeeds. */
  predicate Canjea(b: Base, c: Cripto, e: Peticion, token: string) {
    e.PideCanje? && e.token == token
    && Canjear(b, c, token, e.desde, e.t, e.panel, e.credencial, e.sal).1.Ok?
  }

  /** The request issues a token for `gateway`. */
  predicate Emite(b: Base, c: Cripto, e: Peticion, gateway: nat) {
    e.PideToken? && e.gateway == gateway && Emitir(b, c, e.p, gateway, e.token, e.tabla, e.t).1.Ok?
  }

  ghost predicate Corrida(bs: seq<Base>, es: seq<Peticion>, c: Cripto) {
    && |bs| == |es| + 1 && bs[0].tokens == map[]
    && (forall i {:trigger Paso(bs[i], c, es[i])} :: 0 <= i < |es| ==> bs[i + 1] == Paso(bs[i], c, es[i]))
    && (forall i, j :: 0 <= i < j < |es| ==> es[i].t <= es[j].t)
  }

  /** What a table never undoes: rows stay, a spent token stays spent as it was, and an expiry
      only comes closer. */
  ghost predicate SoloGasta(b: Base, d: Base) {
    forall h :: h in b.tokens ==>
      && h in d.tokens && d.tokens[h].gateway == b.tokens[h].gateway
      && d.tokens[h].expiraEn <= b.tokens[h].expiraEn
      && (b.tokens[h].usadoEn.Some? ==> d.tokens[h] == b.tokens[h])
  }

  lemma PasoSoloGasta(b: Base, c: Cripto, e: Peticion)
    ensures SoloGasta(b, Paso(b, c, e))
    ensures Paso(b, c, e).gateways.Keys == b.gateways.Keys
  {}

  lemma {:induction false} SiempreSoloGasta(bs: seq<Base>, es: seq<Peticion>, c: Cripto, i: nat, j: nat)
    requires Corrida(bs, es, c) && i <= j < |bs|
    ensures SoloGasta(bs[i], bs[j])
  {
    if i < j {
      SiempreSoloGasta(bs, es, c, i, j - 1);
      assert bs[j] == Paso(bs[j - 1], c, es[j - 1]);
      PasoSoloGasta(bs[j - 1], c, es[j - 1]);
    }
  }

  /** No token is ever exchanged twice. */
  lemma UnSoloUso(bs: seq<Base>, es: seq<Peticion>, c: Cripto, token: string, i: nat, j: nat)
    requires Corrida(bs, es, c) && i < |es| && j < |es|
    requires Canjea(bs[i], c, es[i], token) && Canjea(bs[j], c, es[j], token)
    ensures i == j
  {
    var a, z := if i < j then i else j, if i < j then j else i;
    assert bs[a + 1] == Paso(bs[a], c, es[a]);
    assert bs[a + 1].tokens[c.huella(token)].usadoEn.Some?;
    if a < z {
      SiempreSoloGasta(bs, es, c, a + 1, z);
    }
  }

  /** At instant `ahora` a gateway has at most one live token. */
  ghost predicate UnoVivo(b: Base, ahora: int) {
    forall h, k :: h in b.tokens && k in b.tokens && h != k && b.tokens[h].gateway == b.tokens[k].gateway ==>
      !(Vivo(b.tokens[h], ahora) && Vivo(b.tokens[k], ahora))
  }

  lemma GastarConservaUnoVivo(b: Base, d: Base, antes: int, ahora: int)
    requires UnoVivo(b, antes) && antes <= ahora
    requires SoloGasta(b, d) && d.tokens.Keys == b.tokens.Keys
    ensures UnoVivo(d, ahora)
  {
    forall h | h in d.tokens && Vivo(d.tokens[h], ahora)
      ensures Vivo(b.tokens[h], antes)
    {}
  }

  lemma EmitirConservaUnoVivo(b: Base, c: Cripto, p: Permiso, gateway: nat, token: string, tabla: Tabla, antes: int, ahora: int)
    requires UnoVivo(b, antes) && antes <= ahora
    ensures UnoVivo(Emitir(b, c, p, gateway, token, tabla, ahora).0, ahora)
  {
    var vencidos := b.(tokens := Vencer(b.tokens, gateway, ahora));
    GastarConservaUnoVivo(b, vencidos, antes, ahora);
    GastarConservaUnoVivo(b, b, antes, ahora);
    assert forall h :: h in vencidos.tokens && vencidos.tokens[h].gateway == gateway ==> !Vivo(vencidos.tokens[h], ahora);
  }

  lemma PasoUnoVivo(b: Base, c: Cripto, e: Peticion, antes: int)
    requires UnoVivo(b, antes) && antes <= e.t
    ensures UnoVivo(Paso(b, c, e), e.t)
  {
    if e.PideToken? {
      EmitirConservaUnoVivo(b, c, e.p, e.gateway, e.token, e.tabla, antes, e.t);
    } else {
      PasoSoloGasta(b, c, e);
      GastarConservaUnoVivo(b, Paso(b, c, e), antes, e.t);
    }
  }

  /** In every run, from the last request on, each gateway has at most one live token. */
  lemma {:induction false} UnSoloVivo(bs: seq<Base>, es: seq<Peticion>, c: Cripto, i: nat, ahora: int)
    requires Corrida(bs, es, c) && i < |bs| && (i > 0 ==> es[i - 1].t <= ahora)
    ensures UnoVivo(bs[i], ahora)
  {
    if i > 0 {
      assert bs[i] == Paso(bs[i - 1], c, es[i - 1]);
      var antes := if i > 1 then es[i - 2].t else es[i - 1].t;
      UnSoloVivo(bs, es, c, i - 1, antes);
      PasoUnoVivo(bs[i - 1], c, es[i - 1], antes);
      GastarConservaUnoVivo(bs[i], bs[i], es[i - 1].t, ahora);
    }
  }

  lemma FilaNueva(b: Base, c: Cripto, e: Peticion, h: string)
    requires h !in b.tokens && h in Paso(b, c, e).tokens
    ensures e.PideToken? && Emite(b, c, e, Paso(b, c, e).tokens[h].gateway) && c.huella(e.token) == h
    ensures Paso(b, c, e).tokens[h].expiraEn == e.t + VIGENCIA
  {}

  lemma EmitirVenceLasDemas(b: Base, c: Cripto, e: Peticion, h: string)
    requires h in b.tokens && Emite(b, c, e, b.tokens[h].gateway)
    ensures h in Paso(b, c, e).tokens && !Vivo(Paso(b, c, e).tokens[h], e.t)
  {}

  /** Where a row of the table comes from: it was issued, for its gateway, at most eight hours
      before it expires; and each later issue for the gateway found it spent or made it expire. */
  lemma {:induction false} Procedencia(bs: seq<Base>, es: seq<Peticion>, c: Cripto, j: nat, h: string) returns (i: nat)
    requires Corrida(bs, es, c) && j < |bs| && h in bs[j].tokens
    ensures i < j && Emite(bs[i], c, es[i], bs[j].tokens[h].gateway) && c.huella(es[i].token) == h
    ensures bs[j].tokens[h].expiraEn <= es[i].t + VIGENCIA
    ensures forall k :: i < k < j && Emite(bs[k], c, es[k], bs[j].tokens[h].gateway) ==> !Vivo(bs[j].tokens[h], es[k].t)
  {
    assert j > 0;
    var b, e := bs[j - 1], es[j - 1];
    assert bs[j] == Paso(b, c, e);
    if h in b.tokens {
      i := Procedencia(bs, es, c, j - 1, h);
      SiempreSoloGasta(bs, es, c, j - 1, j);
      if Emite(b, c, e, b.tokens[h].gateway) {
        EmitirVenceLasDemas(b, c, e, h);
      }
    } else {
      i := j - 1;
      FilaNueva(b, c, e, h);
    }
  }

  /** A successful exchange presents a token that was issued for that gateway less than eight
      hours before, and no other has been issued for the gateway since. */
  lemma CanjeVieneDeEmision(bs: seq<Base>, es: seq<Peticion>, c: Cripto, j: nat, token: string) returns (i: nat)
    requires Corrida(bs, es, c) && HashConfiable(c) && j < |es| && Canjea(bs[j], c, es[j], token)
    ensures i < j && Emite(bs[i], c, es[i], bs[j].tokens[c.huella(token)].gateway) && es[i].token == token
    ensures es[i].t <= es[j].t < es[i].t + VIGENCIA
    ensures forall k :: i < k < j ==> !Emite(bs[k], c, es[k], bs[j].tokens[c.huella(token)].gateway)
  {
    i := Procedencia(bs, es, c, j, c.huella(token));
  }
}
