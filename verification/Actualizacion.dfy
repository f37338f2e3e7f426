/** One gateway's row during a firmware update, and what each request does to it. The rules are
    those of app/domain/firmware_update.py, app/services/firmware.py and
    app/services/firmware_admin.py; the methods that write the row in place are in `Servicio`. */
module Actualizacion {
  import opened Wrappers
  import opened Versiones
  import opened ConfigFlota
  import opened Ventana
  import Ajustes

  datatype Estado = SinPendiente | Programada | Descargando | Aplicando | Aplicada | Fallida

  const MAX_INTENTOS := 3

  /** What may follow what. An update being applied cannot be cancelled. */
  function Transiciones(e: Estado): set<Estado> {
    match e
    case SinPendiente => {Programada}
    case Programada => {Descargando, Fallida, SinPendiente}
    case Descargando => {Aplicando, Fallida, SinPendiente}
    case Aplicando => {Aplicada, Fallida}
    case Aplicada => {Programada, SinPendiente}
    case Fallida => {Programada, SinPendiente}
  }

  predicate TransicionValida(actual: Estado, nuevo: Estado) {
    actual == nuevo || nuevo in Transiciones(actual)
  }

  predicate PuedeReintentar(intentos: nat) { intentos < MAX_INTENTOS }

  /** The device still has something to do. */
  predicate EnCurso(e: Estado) { e.Programada? || e.Descargando? || e.Aplicando? || e.Fallida? }

  /** What a device may report about itself. */
  predicate Reportable(e: Estado) { e.Descargando? || e.Aplicando? || e.Aplicada? || e.Fallida? }

  type ReleaseId = nat

  datatype Release = Release(version: string, sha256: string, tamano: Option<nat>, notas: string, retiradoEn: Option<int>)
  {
    predicate Disponible() { retiradoEn.None? }
  }

  type Catalogo = map<ReleaseId, Release>

  /** The columns of a gateway that the update protocol reads or writes. */
  datatype Fila = Fila(
    objetivo: Option<ReleaseId>,
    estado: Estado,
    intentos: nat,
    aplicarDesde: Option<int>,
    version: Option<string>,
    versionAnterior: Option<string>,
    error: Option<string>,
    reportadoEn: Option<int>,
    ultimaConexion: Option<int>,
    credencial: Option<string>)

  datatype Orden = Orden(
    version: string, url: string, sha256: string, tamano: Option<nat>, aplicarDesde: int,
    ventanaMinutos: int, rollbackAuto: bool, intentosRestantes: int, notas: string)

  function SinBarras(s: string): string {
    if s != "" && s[|s| - 1] == '/' then SinBarras(s[..|s| - 1]) else s
  }

  function PaqueteUrl(base: string, version: string): string {
    SinBarras(base) + "/gatewayEMS-" + version + ".tar.gz"
  }

  function Objetivo(f: Fila, rs: Catalogo): Option<Release> {
    if f.objetivo.Some? && f.objetivo.value in rs then Some(rs[f.objetivo.value]) else None
  }

  // --- what the device asks -------------------------------------------------

  function Rearmada(f: Fila): Fila {
    if f.estado.Fallida? then f.(estado := Programada) else f
  }

  /** The concession on the row is still ahead, or open. */
  predicate Vigente(f: Fila, ventanaMinutos: int, ahora: int) {
    f.aplicarDesde.Some?
    && (ahora < f.aplicarDesde.value || DentroDeVentana(ahora, f.aplicarDesde.value, ventanaMinutos))
  }

  /** `_vigente`: the row with a concession that is not over. An unknown zone raises before
      anything is written. */
  function ConVentana(f: Fila, c: VentanaConfig, ahora: int, zona: Option<Zona>): (r: Result<Fila, Error>)
    ensures r.Ok? ==> r.value.aplicarDesde.Some?
  {
    if Vigente(f, c.ventanaMinutos, ahora) then Ok(Rearmada(f))
    else match zona
      case None => Err(Interno)
      case Some(z) =>
        Ok(Rearmada(f).(aplicarDesde := Some(ProximaVentana(ahora, c.hora, c.ventanaMinutos, z))))
  }

  function RetiradaTexto(version: string): string { "La versi\U{00F3}n " + version + " fue retirada" }

  /** `_cancelar`. The attempts spent stay written. */
  function CanceladaPorRetiro(f: Fila, version: string): Fila {
    if TransicionValida(f.estado, SinPendiente) then
      f.(estado := SinPendiente, objetivo := None, aplicarDesde := None, error := Some(RetiradaTexto(version)))
    else f
  }

  function DadaPorAplicada(f: Fila, ahora: int): Fila {
    if TransicionValida(f.estado, Aplicada) then
      f.(estado := Aplicada, reportadoEn := Some(ahora), error := None)
    else f
  }

  function OrdenDe(f: Fila, r: Release, c: VentanaConfig, desde: int): Orden {
    Orden(r.version, PaqueteUrl(c.baseUrl, r.version), r.sha256, r.tamano, desde, c.ventanaMinutos,
          c.rollbackAuto, MAX_INTENTOS - f.intentos, r.notas)
  }

  /** `pendiente`, once the settings are read. */
  function Consulta(f: Fila, rs: Catalogo, cfg: Result<VentanaConfig, Error>, ahora: int, zona: Option<Zona>)
    : (Fila, Result<Option<Orden>, Error>)
  {
    match cfg
    case Err(e) => (f, Err(e))
    case Ok(c) =>
      if !c.activo then (f, Err(NoAutorizado)) else
      match Objetivo(f, rs)
      case None => (f, Ok(None))
      case Some(r) =>
        if !r.Disponible() then (CanceladaPorRetiro(f, r.version), Ok(None))
        else if !EnCurso(f.estado) then (f, Ok(None))
        else if MismaVersion(f.version, Some(r.version)) then (DadaPorAplicada(f, ahora), Ok(None))
        else if !PuedeReintentar(f.intentos) then (f, Ok(None))
        else match ConVentana(f, c, ahora, zona)
          case Err(e) => (f, Err(e))
          case Ok(g) => (g, Ok(Some(OrdenDe(g, r, c, g.aplicarDesde.value))))
  }

  function Contactada(f: Fila, version: Option<string>, ahora: int): Fila {
    f.(ultimaConexion := Some(ahora), version := if version.Some? then version else f.version)
  }

  /** The heartbeat route: contact, then the same question. Only "updates are off" is swallowed;
      any other failure rolls the contact back as well. */
  function Latido(f: Fila, rs: Catalogo, version: Option<string>, cfg: Result<VentanaConfig, Error>, ahora: int, zona: Option<Zona>)
    : (Fila, Result<Option<Orden>, Error>)
  {
    var g := Contactada(f, version, ahora);
    var (h, r) := Consulta(g, rs, cfg, ahora, zona);
    if r == Err(NoAutorizado) then (g, Ok(None))
    else if r.Err? then (f, r)
    else (h, r)
  }

  // --- what the device tells ------------------------------------------------

  function MotivoDelFallo(error: Option<string>): string {
    if error.Some? && error.value != "" then error.value else "El equipo no dijo por qu\U{00E9}"
  }

  /** What an accepted ack writes. An attempt starts when the download does, once. */
  function Anotada(f: Fila, normal: Result<string, Error>, estado: Estado, error: Option<string>, ahora: int)
    : Result<Fila, Error>
  {
    var g := f.(
      estado := estado,
      intentos := if estado.Descargando? && f.estado != estado then f.intentos + 1 else f.intentos,
      reportadoEn := Some(ahora),
      ultimaConexion := Some(ahora));
    match estado
    case Aplicada =>
      var nueva :- normal;
      Ok(g.(versionAnterior := f.version, version := Some(nueva), error := None))
    case Fallida => Ok(g.(error := Some(MotivoDelFallo(error))))
    case _ => Ok(g)
  }

  /** `acuse`, behind the schema that only lets a device report its own four states. */
  function Acuse(f: Fila, rs: Catalogo, estado: Estado, version: string, error: Option<string>, ahora: int)
    : (Fila, Result<(), Error>)
  {
    if !Reportable(estado) then (f, Err(Validacion)) else
    match Objetivo(f, rs)
    case None => (f, Err(ReglaDeNegocio))
    case Some(r) =>
      if !MismaVersion(Some(version), Some(r.version)) then (f, Err(ReglaDeNegocio))
      else if !TransicionValida(f.estado, estado) then (f, Err(ReglaDeNegocio))
      else match Anotada(f, NormalizarVersion(r.version), estado, error, ahora)
        case Err(e) => (f, Err(Interno))
        case Ok(g) => (g, Ok(()))
  }

  // --- what the panel decides -----------------------------------------------

  datatype Motivo = YaLaCorre | SinCredencial | EstaAplicando

  function PorQueNo(f: Fila, r: Release): Option<Motivo> {
    if MismaVersion(f.version, Some(r.version)) then Some(YaLaCorre)
    else if f.credencial.None? then Some(SinCredencial)
    else if !TransicionValida(f.estado, Programada) then Some(EstaAplicando)
    else None
  }

  /** What a rollout writes on a row it does not skip. */
  function Pedida(f: Fila, id: ReleaseId, desde: int): Fila {
    f.(objetivo := Some(id), estado := Programada, aplicarDesde := Some(desde), intentos := 0,
       error := None, reportadoEn := None)
  }

  function Cancelada(f: Fila): (Fila, Result<(), Error>) {
    if f.estado.SinPendiente? then (f, Ok(()))
    else if !TransicionValida(f.estado, SinPendiente) then (f, Err(ReglaDeNegocio))
    else (f.(estado := SinPendiente, objetivo := None, aplicarDesde := None, intentos := 0, error := None), Ok(()))
  }

  // --- what one request guarantees ------------------------------------------

  /** The table in full: repeating a state is always allowed, and these are the only moves besides. */
  predicate Arista(a: Estado, b: Estado) {
    || a == b
    || (a.SinPendiente? && b.Programada?)
    || (a.Programada? && (b.Descargando? || b.Fallida? || b.SinPendiente?))
    || (a.Descargando? && (b.Aplicando? || b.Fallida? || b.SinPendiente?))
    || (a.Aplicando? && (b.Aplicada? || b.Fallida?))
    || (a.Aplicada? && (b.Programada? || b.SinPendiente?))
    || (a.Fallida? && (b.Programada? || b.SinPendiente?))
  }

  lemma TablaDeTransiciones(a: Estado, b: Estado)
    ensures TransicionValida(a, b) <==> Arista(a, b)
  {}

  function Barras(n: nat): string { seq(n, i requires 0 <= i < n => '/') }

  predicate TerminaEnBarra(s: string) { s != "" && s[|s| - 1] == '/' }

  /** The address of a version's package: the base without the slashes it ends in, and the file. */
  ghost predicate EsDireccionDe(url: string, base: string, version: string) {
    exists b: string, n: nat ::
      base == b + Barras(n) && !TerminaEnBarra(b) && url == b + "/gatewayEMS-" + version + ".tar.gz"
  }

  lemma {:induction false} SinBarrasCorta(s: string) returns (n: nat)
    ensures s == SinBarras(s) + Barras(n) && !TerminaEnBarra(SinBarras(s))
  {
    n := 0;
    if TerminaEnBarra(s) {
      n := SinBarrasCorta(s[..|s| - 1]);
      assert s == s[..|s| - 1] + "/" && Barras(n) + "/" == Barras(n + 1);
      n := n + 1;
    }
  }

  lemma PaqueteUrlSii(base: string, version: string)
    ensures EsDireccionDe(PaqueteUrl(base, version), base, version)
  {
    var n := SinBarrasCorta(base);
    assert PaqueteUrl(base, version) == SinBarras(base) + "/gatewayEMS-" + version + ".tar.gz";
  }

  /** The release a gateway is on its way to, if it is offered, not the one running, and there is
      something left to try. */
  predicate Procura(f: Fila, rs: Catalogo) {
    && f.objetivo.Some? && f.objetivo.value in rs && rs[f.objetivo.value].retiradoEn.None?
    && (f.estado.Programada? || f.estado.Descargando? || f.estado.Aplicando? || f.estado.Fallida?)
    && !MismaVersion(f.version, Some(rs[f.objetivo.value].version)) && f.intentos < 3
  }

  /** The concession written is ahead or open. */
  predicate ConcesionSigue(f: Fila, minutos: int, ahora: int) {
    f.aplicarDesde.Some? && ahora < f.aplicarDesde.value + minutos * MINUTO
  }

  /** When a question gets an order. With the settings readable: exactly when updates are on, the
      gateway is on its way to a release, and its concession is not over or the zone of its site is
      known. Then a failed attempt is armed again, and a concession that was over is replaced by the
      window that comes next; nothing else of the row changes. */
  lemma OrdenSii(f: Fila, rs: Catalogo, c: VentanaConfig, ahora: int, zona: Option<Zona>)
    ensures var (g, r) := Consulta(f, rs, Ok(c), ahora, zona);
      var sigue := ConcesionSigue(f, c.ventanaMinutos, ahora);
      && (r.Ok? && r.value.Some? <==> c.activo && Procura(f, rs) && (sigue || zona.Some?))
      && (r.Err? <==> !c.activo || (Procura(f, rs) && !sigue && zona.None?))
      && (r.Err? ==> g == f && r.error == if c.activo then Interno else NoAutorizado)
      && (r.Ok? && r.value.Some? ==>
            g == f.(estado := if f.estado.Fallida? then Programada else f.estado,
                    aplicarDesde := if sigue then f.aplicarDesde
                                    else Some(ProximaVentana(ahora, c.hora, c.ventanaMinutos, zona.value))))
  {
    assert Vigente(f, c.ventanaMinutos, ahora) <==> ConcesionSigue(f, c.ventanaMinutos, ahora);
  }

  /** A question that gets no order, of a gateway whose release is offered and is not the one
      running, changes nothing. */
  lemma SinOrdenSinCambio(f: Fila, rs: Catalogo, c: VentanaConfig, ahora: int, zona: Option<Zona>)
    requires Consulta(f, rs, Ok(c), ahora, zona).1 == Ok(None)
    requires Objetivo(f, rs).Some? ==>
      Objetivo(f, rs).value.Disponible() && !MismaVersion(f.version, Some(Objetivo(f, rs).value.version))
    ensures Consulta(f, rs, Ok(c), ahora, zona).0 == f
  {}

  /** A concession that was over is replaced, with the order, by one that starts at the first
      instant from now on at which a window of the site is open: exactly when three days are enough
      to tell, where the days come in order. */
  lemma NuevaConcesion(f: Fila, rs: Catalogo, c: VentanaConfig, ahora: int, z: Zona)
    requires c.activo && Procura(f, rs) && !ConcesionSigue(f, c.ventanaMinutos, ahora) && DiasEnOrden(c.hora, z)
    ensures var (g, r) := Consulta(f, rs, Ok(c), ahora, Some(z));
      && r.Ok? && r.value.Some? && g.aplicarDesde == Some(r.value.value.aplicarDesde)
      && (TresDiasBastan(ahora, c.hora, c.ventanaMinutos * MINUTO, z) <==>
            EsProxima(g.aplicarDesde.value, ahora, c.hora, c.ventanaMinutos * MINUTO, z))
  {
    OrdenSii(f, rs, c, ahora, Some(z));
    OrdenSePuedeCumplir(f, rs, Ok(c), ahora, Some(z));
    ProximaVentanaExacta(ahora, c.hora, c.ventanaMinutos, z);
  }

  /** The heartbeat hands over an order exactly when the question would, of the gateway as it says
      it is; with updates off it has none to hand over. */
  lemma LatidoOrdenaSii(f: Fila, rs: Catalogo, version: Option<string>, c: VentanaConfig, ahora: int, zona: Option<Zona>)
    ensures var r := Latido(f, rs, version, Ok(c), ahora, zona).1;
      var g := Contactada(f, version, ahora);
      && (r.Ok? && r.value.Some? <==> c.activo && Procura(g, rs) && (ConcesionSigue(f, c.ventanaMinutos, ahora) || zona.Some?))
      && (r.Ok? && r.value.Some? ==>
            r == Consulta(g, rs, Ok(c), ahora, zona).1
            && Latido(f, rs, version, Ok(c), ahora, zona).0 == Consulta(g, rs, Ok(c), ahora, zona).0)
      && g == f.(ultimaConexion := Some(ahora), version := if version.Some? then version else f.version)
  {
    OrdenSii(Contactada(f, version, ahora), rs, c, ahora, zona);
  }

  /** Why a rollout skips a gateway, first reason first; one that none of them fits is scheduled. */
  lemma PorQueNoSii(f: Fila, r: Release)
    ensures PorQueNo(f, r) ==
      if MismaVersion(f.version, Some(r.version)) then Some(YaLaCorre)
      else if f.credencial == None then Some(SinCredencial)
      else if f.estado == Descargando || f.estado == Aplicando then Some(EstaAplicando)
      else None
  {
    TablaDeTransiciones(f.estado, Programada);
  }

  /** Cancelling is refused exactly while the device restarts, and then nothing changes; otherwise
      nothing is left of the order, and what the device reported about itself stays. */
  lemma CancelarSuelta(f: Fila)
    ensures var (g, r) := Cancelada(f);
      && (r.Ok? <==> !f.estado.Aplicando?) && (r.Err? ==> r.error == ReglaDeNegocio) && (r.Err? || f.estado.SinPendiente? ==> g == f)
      && (r.Ok? && !f.estado.SinPendiente? ==>
            && g.estado.SinPendiente? && g.objetivo.None? && g.aplicarDesde.None? && g.intentos == 0 && g.error.None?)
      && g.version == f.version && g.versionAnterior == f.versionAnterior && g.reportadoEn == f.reportadoEn
      && g.ultimaConexion == f.ultimaConexion && g.credencial == f.credencial
  {}

  /** An order is never one the device cannot carry out: updates are on, the release is offered
      and is not the one running, an attempt is left, and the concession is not over. */
  lemma OrdenSePuedeCumplir(f: Fila, rs: Catalogo, cfg: Result<VentanaConfig, Error>, ahora: int, zona: Option<Zona>)
    requires Consulta(f, rs, cfg, ahora, zona).1.Ok? && Consulta(f, rs, cfg, ahora, zona).1.value.Some?
    ensures cfg.Ok? && cfg.value.activo
    ensures Objetivo(f, rs).Some? && Objetivo(f, rs).value.Disponible()
    ensures !MismaVersion(f.version, Some(Objetivo(f, rs).value.version))
    ensures var (g, r) := Consulta(f, rs, cfg, ahora, zona);
      var o := r.value.value;
      && o.version == Objetivo(f, rs).value.version && o.sha256 == Objetivo(f, rs).value.sha256
      && EsDireccionDe(o.url, cfg.value.baseUrl, o.version)
      && (g.estado.Programada? || g.estado.Descargando? || g.estado.Aplicando?)
      && (g.estado == f.estado || (f.estado.Fallida? && g.estado.Programada?))
      && g.objetivo == f.objetivo && g.intentos == f.intentos
      && 1 <= o.intentosRestantes <= MAX_INTENTOS && o.intentosRestantes == MAX_INTENTOS - f.intentos
      && g.aplicarDesde == Some(o.aplicarDesde)
      && o.ventanaMinutos == cfg.value.ventanaMinutos && o.rollbackAuto == cfg.value.rollbackAuto
      && o.tamano == Objetivo(f, rs).value.tamano && o.notas == Objetivo(f, rs).value.notas
      && (Vigente(f, o.ventanaMinutos, ahora) ==> Some(o.aplicarDesde) == f.aplicarDesde)
  {
    PaqueteUrlSii(cfg.value.baseUrl, Objetivo(f, rs).value.version);
  }

  /** The order's concession is not over, wherever the clock moves by a day at most. One that is
      not over is kept; with the days in order, a new one is the first instant from now on at which
      a daily window of the site is open, exactly when three days are enough to tell. */
  lemma OrdenLlegaATiempo(f: Fila, rs: Catalogo, cfg: Result<VentanaConfig, Error>, ahora: int, zona: Option<Zona>)
    requires Consulta(f, rs, cfg, ahora, zona).1.Ok? && Consulta(f, rs, cfg, ahora, zona).1.value.Some?
    ensures var o := Consulta(f, rs, cfg, ahora, zona).1.value.value;
      if Vigente(f, o.ventanaMinutos, ahora) then
        Some(o.aplicarDesde) == f.aplicarDesde && ahora < o.aplicarDesde + o.ventanaMinutos * MINUTO
      else
        && (SinSaltoDeMasDeUnDia(ahora, cfg.value.hora, zona.value) ==> ahora <= o.aplicarDesde)
        && (DiasEnOrden(cfg.value.hora, zona.value) ==>
              (TresDiasBastan(ahora, cfg.value.hora, o.ventanaMinutos * MINUTO, zona.value) <==>
               EsProxima(o.aplicarDesde, ahora, cfg.value.hora, o.ventanaMinutos * MINUTO, zona.value)))
  {
    OrdenSePuedeCumplir(f, rs, cfg, ahora, zona);
    var c := cfg.value;
    if !Vigente(f, c.ventanaMinutos, ahora) {
      ProximaNoEsPasada(ahora, c.hora, c.ventanaMinutos, zona.value);
      if DiasEnOrden(c.hora, zona.value) {
        ProximaVentanaExacta(ahora, c.hora, c.ventanaMinutos, zona.value);
      }
    }
  }

  /** A question takes the target away: it is asked with updates on, once the release is retired,
      of a gateway that is not restarting. */
  predicate SueltaPorRetiro(f: Fila, rs: Catalogo, cfg: Result<VentanaConfig, Error>) {
    cfg.Ok? && cfg.value.activo && Objetivo(f, rs).Some? && !Objetivo(f, rs).value.Disponible() && !f.estado.Aplicando?
  }

  /** That is the only way a question can take it, whether the gateway is on its way to the release
      or already runs it; then nothing is left of the order but the attempts spent. */
  lemma RetiroSuelta(f: Fila, rs: Catalogo, cfg: Result<VentanaConfig, Error>, ahora: int, zona: Option<Zona>)
    requires Objetivo(f, rs).Some?
    ensures Consulta(f, rs, cfg, ahora, zona).0.objetivo == f.objetivo <==> !SueltaPorRetiro(f, rs, cfg)
    ensures SueltaPorRetiro(f, rs, cfg) ==>
      var (g, r) := Consulta(f, rs, cfg, ahora, zona);
      && r == Ok(None) && g.estado.SinPendiente? && g.objetivo.None? && g.aplicarDesde.None?
      && g.error == Some("La versi\U{00F3}n " + Objetivo(f, rs).value.version + " fue retirada")
      && g.version == f.version && g.intentos == f.intentos
  {}

  lemma SoloSeCierraAplicando(f: Fila, ahora: int)
    requires EnCurso(f.estado)
    ensures DadaPorAplicada(f, ahora) ==
      if f.estado.Aplicando? then f.(estado := Aplicada, reportadoEn := Some(ahora), error := None) else f
  {}

  /** A gateway seen running its target is closed without an ack exactly when it was restarting;
      in any other state its row stays as it was, and no order goes out. */
  lemma CierreSinAcuse(f: Fila, rs: Catalogo, c: VentanaConfig, ahora: int, zona: Option<Zona>)
    requires c.activo && Objetivo(f, rs).Some? && Objetivo(f, rs).value.Disponible()
    requires MismaVersion(f.version, Some(Objetivo(f, rs).value.version))
    ensures Consulta(f, rs, Ok(c), ahora, zona).1 == Ok(None)
    ensures Consulta(f, rs, Ok(c), ahora, zona).0 ==
      if f.estado.Aplicando? then f.(estado := Aplicada, reportadoEn := Some(ahora), error := None) else f
  {
    if EnCurso(f.estado) { SoloSeCierraAplicando(f, ahora); }
  }

  /** The states from which a device may report each of the four. */
  predicate PuedeReportar(f: Estado, nuevo: Estado) {
    || (nuevo.Descargando? && (f.Programada? || f.Descargando?))
    || (nuevo.Aplicando? && (f.Descargando? || f.Aplicando?))
    || (nuevo.Aplicada? && (f.Aplicando? || f.Aplicada?))
    || (nuevo.Fallida? && (f.Programada? || f.Descargando? || f.Aplicando? || f.Fallida?))
  }

  lemma ReportarSii(f: Estado, nuevo: Estado)
    ensures Reportable(nuevo) && TransicionValida(f, nuevo) <==> PuedeReportar(f, nuevo)
  {
    TablaDeTransiciones(f, nuevo);
  }

  /** When an ack is accepted, and that nothing else can go wrong with it. */
  lemma AcuseAceptadoSii(f: Fila, rs: Catalogo, estado: Estado, version: string, error: Option<string>, ahora: int)
    ensures var (g, r) := Acuse(f, rs, estado, version, error, ahora);
      && (r.Ok? <==>
            && f.objetivo.Some? && f.objetivo.value in rs
            && MismaVersion(Some(version), Some(rs[f.objetivo.value].version))
            && PuedeReportar(f.estado, estado))
      && (r.Err? ==> g == f && r.error == if estado.SinPendiente? || estado.Programada? then Validacion else ReglaDeNegocio)
      && (r.Ok? ==> g.estado == estado && g.objetivo == f.objetivo && g.aplicarDesde == f.aplicarDesde)
      && (r.Ok? && !estado.Aplicada? ==> g.version == f.version && g.versionAnterior == f.versionAnterior)
      && (r.Ok? && estado.Aplicada? ==>
            && MismaVersion(g.version, Some(version)) && g.error.None?
            && Ok(g.version.value) == NormalizarVersion(rs[f.objetivo.value].version)
            && g.versionAnterior == f.version)
  {
    ReportarSii(f.estado, estado);
    var r := Acuse(f, rs, estado, version, error, ahora).1;
    if r.Ok? && estado.Aplicada? {
      NormalizarEsCanonica(Objetivo(f, rs).value.version);
    }
  }

  lemma AceptadoEsAnotada(f: Fila, rs: Catalogo, estado: Estado, version: string, error: Option<string>, ahora: int)
    requires Acuse(f, rs, estado, version, error, ahora).1.Ok?
    ensures Reportable(estado) && TransicionValida(f.estado, estado) && Objetivo(f, rs).Some?
    ensures MismaVersion(Some(version), Some(Objetivo(f, rs).value.version))
    ensures Ok(Acuse(f, rs, estado, version, error, ahora).0)
         == Anotada(f, NormalizarVersion(Objetivo(f, rs).value.version), estado, error, ahora)
  {}

  lemma AnotadaEsAceptada(f: Fila, rs: Catalogo, estado: Estado, version: string, error: Option<string>, ahora: int, g: Fila)
    requires Reportable(estado) && TransicionValida(f.estado, estado) && Objetivo(f, rs).Some?
    requires MismaVersion(Some(version), Some(Objetivo(f, rs).value.version))
    requires Anotada(f, NormalizarVersion(Objetivo(f, rs).value.version), estado, error, ahora) == Ok(g)
    ensures Acuse(f, rs, estado, version, error, ahora) == (g, Ok(()))
  {}

  lemma AnotadaDosVeces(f: Fila, normal: Result<string, Error>, estado: Estado, error: Option<string>, t: int, u: int)
    requires Reportable(estado) && TransicionValida(f.estado, estado) && Anotada(f, normal, estado, error, t).Ok?
    ensures var g := Anotada(f, normal, estado, error, t).value;
      && g.objetivo == f.objetivo && g.estado == estado && Anotada(g, normal, estado, error, u).Ok?
      && var h := Anotada(g, normal, estado, error, u).value;
         && h == g.(reportadoEn := Some(u), ultimaConexion := Some(u), versionAnterior := h.versionAnterior)
         && h.versionAnterior == if estado.Aplicada? then h.version else f.versionAnterior
  {}

  lemma AnotadaEscribe(f: Fila, normal: Result<string, Error>, estado: Estado, error: Option<string>, ahora: int)
    requires Reportable(estado) && TransicionValida(f.estado, estado) && Anotada(f, normal, estado, error, ahora).Ok?
    ensures var g := Anotada(f, normal, estado, error, ahora).value;
      && g.intentos == f.intentos + (if f.estado.Programada? && estado.Descargando? then 1 else 0)
      && g.reportadoEn == Some(ahora) && g.ultimaConexion == Some(ahora) && g.credencial == f.credencial
      && (estado.Fallida? ==>
            g.error == if error.Some? && error.value != "" then error else Some("El equipo no dijo por qu\U{00E9}"))
      && (estado.Descargando? || estado.Aplicando? ==> g.error == f.error)
  {}

  /** What an accepted ack leaves besides the state: an attempt is counted exactly when a download
      begins, a failure always has a reason, and the contact is recorded. */
  lemma AcuseEscribe(f: Fila, rs: Catalogo, estado: Estado, version: string, error: Option<string>, ahora: int)
    requires Acuse(f, rs, estado, version, error, ahora).1.Ok?
    ensures var g := Acuse(f, rs, estado, version, error, ahora).0;
      && g.intentos == f.intentos + (if f.estado.Programada? && estado.Descargando? then 1 else 0)
      && g.reportadoEn == Some(ahora) && g.ultimaConexion == Some(ahora) && g.credencial == f.credencial
      && (estado.Fallida? ==>
            g.error == if error.Some? && error.value != "" then error else Some("El equipo no dijo por qu\U{00E9}"))
      && (estado.Descargando? || estado.Aplicando? ==> g.error == f.error)
  {
    AceptadoEsAnotada(f, rs, estado, version, error, ahora);
    AnotadaEscribe(f, NormalizarVersion(Objetivo(f, rs).value.version), estado, error, ahora);
  }

  /** The network may deliver an accepted ack again. Only the two timestamps move, and for
      `Aplicada` the previous version, which the repetition overwrites with the new one. */
  lemma AcuseRepetido(f: Fila, rs: Catalogo, estado: Estado, version: string, error: Option<string>, t: int, u: int)
    requires Acuse(f, rs, estado, version, error, t).1.Ok?
    ensures var g := Acuse(f, rs, estado, version, error, t).0;
      var (h, r) := Acuse(g, rs, estado, version, error, u);
      && r.Ok?
      && h == g.(reportadoEn := Some(u), ultimaConexion := Some(u), versionAnterior := h.versionAnterior)
      && h.versionAnterior == if estado.Aplicada? then h.version else f.versionAnterior
  {
    AceptadoEsAnotada(f, rs, estado, version, error, t);
    var normal := NormalizarVersion(Objetivo(f, rs).value.version);
    AnotadaDosVeces(f, normal, estado, error, t, u);
    var g := Anotada(f, normal, estado, error, t).value;
    AnotadaEsAceptada(g, rs, estado, version, error, u, Anotada(g, normal, estado, error, u).value);
  }

  /** The heartbeat does fail because of the update notice, against what the route promises, and
      exactly when a setting is hidden where it is read, or an order needs a window of a site whose
      zone is unknown. Then not even the contact is recorded. */
  lemma LatidoFallaSii(f: Fila, rs: Catalogo, version: Option<string>, filas: Ajustes.Tabla, ahora: int, zona: Option<Zona>)
    ensures var cfg := Config(filas);
      var (h, r) := Latido(f, rs, version, cfg, ahora, zona);
      var corre := if version.Some? then version else f.version;
      && (r.Err? <==> AlgoOculto(filas) || (cfg.Ok? && PideVentanaSinZona(f, rs, corre, cfg.value, ahora, zona)))
      && (r.Err? ==> h == f)
      && (r.Ok? ==> h.ultimaConexion == Some(ahora) && h.version == corre)
  {
    ConfigFallaSii(filas);
    LatidoFallaPorVentana(f, rs, version, Config(filas), ahora, zona);
  }

  /** One secret row is enough, and the heartbeat of every gateway fails: here the one that says
      whether a device goes back by itself. The window's, with no hour to read, is not. */
  lemma LatidoConSecretoFalla(f: Fila, rs: Catalogo, version: Option<string>, ahora: int, zona: Option<Zona>)
    ensures var filas := map[ROLLBACK := Ajustes.Ajuste("", true, Ajustes.Plataforma, "")];
      Latido(f, rs, version, Config(filas), ahora, zona) == (f, Err(ReglaDeNegocio))
    ensures var filas := map[VENTANA := Ajustes.Ajuste("", true, Ajustes.Plataforma, "")];
      !AlgoOculto(filas) && Latido(f, rs, version, Config(filas), ahora, zona).1 == Ok(None)
  {
    var rollback := map[ROLLBACK := Ajustes.Ajuste("", true, Ajustes.Plataforma, "")];
    var ventana := map[VENTANA := Ajustes.Ajuste("", true, Ajustes.Plataforma, "")];
    assert Secreta(rollback, ROLLBACK) && TextoDe(ventana, HORA) == "";
    ConfigFallaSii(rollback);
    ConfigFallaSii(ventana);
    FallaCerrado(ventana);
    BanderaSeLee(false);
  }

  /** The question would get an order, the concession is over, and the site's zone is unknown. */
  predicate PideVentanaSinZona(f: Fila, rs: Catalogo, corre: Option<string>, c: VentanaConfig, ahora: int, zona: Option<Zona>) {
    && c.activo && Objetivo(f, rs).Some? && Objetivo(f, rs).value.Disponible()
    && EnCurso(f.estado) && !MismaVersion(corre, Some(Objetivo(f, rs).value.version))
    && PuedeReintentar(f.intentos) && !Vigente(f, c.ventanaMinutos, ahora) && zona.None?
  }

  lemma LatidoFallaPorVentana(f: Fila, rs: Catalogo, version: Option<string>, cfg: Result<VentanaConfig, Error>, ahora: int, zona: Option<Zona>)
    requires cfg.Err? ==> cfg.error != NoAutorizado
    ensures var (h, r) := Latido(f, rs, version, cfg, ahora, zona);
      var corre := if version.Some? then version else f.version;
      && (r.Err? <==> cfg.Err? || PideVentanaSinZona(f, rs, corre, cfg.value, ahora, zona))
      && (r.Err? ==> h == f)
      && (r.Ok? ==> h.ultimaConexion == Some(ahora) && h.version == corre)
  {
    var g := Contactada(f, version, ahora);
    assert Objetivo(g, rs) == Objetivo(f, rs);
  }

  /** Inside a concession the answer is an order, and the row is only armed again. */
  lemma ConsultaOfrece(f: Fila, rs: Catalogo, c: VentanaConfig, ahora: int, zona: Option<Zona>)
    requires c.activo && EnCurso(f.estado) && PuedeReintentar(f.intentos) && Vigente(f, c.ventanaMinutos, ahora)
    requires Objetivo(f, rs).Some? && Objetivo(f, rs).value.Disponible()
    requires !MismaVersion(f.version, Some(Objetivo(f, rs).value.version))
    ensures Consulta(f, rs, Ok(c), ahora, zona).0 == Rearmada(f)
    ensures Consulta(f, rs, Ok(c), ahora, zona).1.Ok? && Consulta(f, rs, Ok(c), ahora, zona).1.value.Some?
  {}

  /** The row after a failure is reported. */
  function Fallada(f: Fila, error: Option<string>, ahora: int): Fila {
    f.(estado := Fallida, error := Some(MotivoDelFallo(error)), reportadoEn := Some(ahora), ultimaConexion := Some(ahora))
  }

  /** An accepted ack that does not carry a version writes the same whatever the release. */
  lemma AcuseAnotado(f: Fila, rs: Catalogo, estado: Estado, version: string, error: Option<string>, ahora: int)
    requires Reportable(estado) && !estado.Aplicada? && TransicionValida(f.estado, estado) && Objetivo(f, rs).Some?
    requires MismaVersion(Some(version), Some(Objetivo(f, rs).value.version))
    ensures Acuse(f, rs, estado, version, error, ahora) == (Anotada(f, Ok(""), estado, error, ahora).value, Ok(()))
  {
    var r := Objetivo(f, rs).value;
    AnotadaSinVersion(f, NormalizarVersion(r.version), estado, error, ahora);
  }

  lemma AnotadaSinVersion(f: Fila, normal: Result<string, Error>, estado: Estado, error: Option<string>, ahora: int)
    requires !estado.Aplicada?
    ensures Anotada(f, normal, estado, error, ahora) == Anotada(f, Ok(""), estado, error, ahora)
    ensures Anotada(f, normal, estado, error, ahora).Ok?
  {}

  /** A failure before the download begins costs nothing: the next question inside the same
      concession arms the gateway again as it was, so this can go on without end. */
  lemma FalloTempranoNoGasta(f: Fila, rs: Catalogo, version: string, error: Option<string>, c: VentanaConfig, t: int, u: int, zona: Option<Zona>)
    requires f.estado.Programada? && PuedeReintentar(f.intentos) && c.activo && Vigente(f, c.ventanaMinutos, u)
    requires Objetivo(f, rs).Some? && Objetivo(f, rs).value.Disponible()
    requires MismaVersion(Some(version), Some(Objetivo(f, rs).value.version))
    requires !MismaVersion(f.version, Some(Objetivo(f, rs).value.version))
    ensures var g := Acuse(f, rs, Fallida, version, error, t).0;
      g.estado.Fallida? && Consulta(g, rs, Ok(c), u, zona).0
        == f.(error := Some(MotivoDelFallo(error)), reportadoEn := Some(t), ultimaConexion := Some(t))
  {
    AcuseAnotado(f, rs, Fallida, version, error, t);
    var g := Fallada(f, error, t);
    assert Objetivo(g, rs) == Objetivo(f, rs);
    ConsultaOfrece(g, rs, c, u, zona);
  }
}
