/** The services that write a gateway's update columns in place
    (app/services/firmware.py, app/services/firmware_admin.py, the heartbeat route). */
module Servicio {
  import opened Wrappers
  import opened Versiones
  import opened ConfigFlota
  import opened Ventana
  import opened Actualizacion

  /** The row as the session holds it: one object, its columns assigned one by one. */
  class Gateway {
    const id: nat
    const numeroSerie: string
    var objetivo: Option<ReleaseId>
    var estado: Estado
    var intentos: nat
    var aplicarDesde: Option<int>
    var version: Option<string>
    var versionAnterior: Option<string>
    var error: Option<string>
    var reportadoEn: Option<int>
    var ultimaConexion: Option<int>
    var credencial: Option<string>

    /** A gateway as it is created: nothing pending, never seen. */
    constructor (id: nat, numeroSerie: string, version: Option<string>)
      ensures this.id == id && this.numeroSerie == numeroSerie
      ensures Valor() == Fila(None, SinPendiente, 0, None, version, None, None, None, None, None)
    {
      this.id, this.numeroSerie := id, numeroSerie;
      objetivo, estado, intentos, aplicarDesde := None, SinPendiente, 0, None;
      this.version, versionAnterior, error := version, None, None;
      reportadoEn, ultimaConexion, credencial := None, None, None;
    }

    function Valor(): Fila
      reads this
    {
      Fila(objetivo, estado, intentos, aplicarDesde, version, versionAnterior, error, reportadoEn, ultimaConexion, credencial)
    }

    // --- FirmwareUpdateService ----------------------------------------------

    method BuscarObjetivo(rs: Catalogo) returns (r: Option<Release>)
      ensures r == Objetivo(Valor(), rs)
    {
      if objetivo.None? { return None; }
      r := if objetivo.value in rs then Some(rs[objetivo.value]) else None;
    }

    method Pendiente(rs: Catalogo, cfg: Result<VentanaConfig, Error>, ahora: int, zona: Option<Zona>)
      returns (r: Result<Option<Orden>, Error>)
      modifies this
      ensures (Valor(), r) == Consulta(old(Valor()), rs, cfg, ahora, zona)
    {
      if cfg.Err? { return Err(cfg.error); }
      var config := cfg.value;
      if !config.activo { return Err(NoAutorizado); }
      var buscada := BuscarObjetivo(rs);
      if buscada.None? { return Ok(None); }
      var release := buscada.value;
      if !release.Disponible() {
        CancelarPorRetiro(release.version);
        return Ok(None);
      }
      if !EnCurso(estado) { return Ok(None); }
      if MismaVersion(version, Some(release.version)) {
        DarPorAplicada(ahora);
        return Ok(None);
      }
      if !PuedeReintentar(intentos) { return Ok(None); }
      var desde := BuscarVentana(config, ahora, zona);
      if desde.Err? { return Err(desde.error); }
      r := Ok(Some(Orden(release.version, PaqueteUrl(config.baseUrl, release.version), release.sha256,
                         release.tamano, desde.value, config.ventanaMinutos, config.rollbackAuto,
                         MAX_INTENTOS - intentos, release.notas)));
    }

    /** `_vigente`. */
    method BuscarVentana(config: VentanaConfig, ahora: int, zona: Option<Zona>) returns (r: Result<int, Error>)
      modifies `aplicarDesde, `estado
      ensures match ConVentana(old(Valor()), config, ahora, zona)
        case Ok(f) => Valor() == f && r == Ok(f.aplicarDesde.value)
        case Err(e) => Valor() == old(Valor()) && r == Err(e)
    {
      var vigente := aplicarDesde.Some?
        && (ahora < aplicarDesde.value || DentroDeVentana(ahora, aplicarDesde.value, config.ventanaMinutos));
      if vigente {
        if estado.Fallida? { estado := Programada; }
        return Ok(aplicarDesde.value);
      }
      if zona.None? { return Err(Interno); }
      var nueva := ProximaVentana(ahora, config.hora, config.ventanaMinutos, zona.value);
      aplicarDesde := Some(nueva);
      if estado.Fallida? { estado := Programada; }
      r := Ok(nueva);
    }

    /** `_cancelar`. */
    method CancelarPorRetiro(versionRetirada: string)
      modifies this
      ensures Valor() == CanceladaPorRetiro(old(Valor()), versionRetirada)
    {
      if !TransicionValida(estado, SinPendiente) { return; }
      estado := SinPendiente;
      objetivo := None;
      aplicarDesde := None;
      error := Some(RetiradaTexto(versionRetirada));
    }

    /** `_dar_por_aplicada`. */
    method DarPorAplicada(ahora: int)
      modifies this
      ensures Valor() == DadaPorAplicada(old(Valor()), ahora)
    {
      if !TransicionValida(estado, Aplicada) { return; }
      estado := Aplicada;
      reportadoEn := Some(ahora);
      error := None;
    }

    /** `acuse`, and the schema in front of it. */
    method Acusar(rs: Catalogo, nuevo: Estado, versionAcusada: string, motivo: Option<string>, ahora: int)
      returns (r: Result<(), Error>)
      modifies this
      ensures (Valor(), r) == Acuse(old(Valor()), rs, nuevo, versionAcusada, motivo, ahora)
    {
      if !Reportable(nuevo) { return Err(Validacion); }
      var buscada := BuscarObjetivo(rs);
      if buscada.None? { return Err(ReglaDeNegocio); }
      var release := buscada.value;
      if !MismaVersion(Some(versionAcusada), Some(release.version)) { return Err(ReglaDeNegocio); }
      if !TransicionValida(estado, nuevo) { return Err(ReglaDeNegocio); }
      var normal := NormalizarVersion(release.version);
      if nuevo.Aplicada? && normal.Err? { return Err(Interno); }
      Anotar(normal, nuevo, motivo, ahora);
      r := Ok(());
    }

    method Anotar(normal: Result<string, Error>, nuevo: Estado, motivo: Option<string>, ahora: int)
      requires nuevo.Aplicada? ==> normal.Ok?
      modifies this
      ensures Ok(Valor()) == Anotada(old(Valor()), normal, nuevo, motivo, ahora)
    {
      var anterior := estado;
      if nuevo.Descargando? && anterior != nuevo {
        intentos := intentos + 1;
      }
      if nuevo.Aplicada? {
        versionAnterior := version;
        version := Some(normal.value);
        error := None;
      } else if nuevo.Fallida? {
        error := Some(MotivoDelFallo(motivo));
      }
      estado := nuevo;
      reportadoEn := Some(ahora);
      ultimaConexion := Some(ahora);
    }

    /** The heartbeat route. A failure other than "updates are off" rolls the request back. */
    method Latir(rs: Catalogo, reportada: Option<string>, cfg: Result<VentanaConfig, Error>, ahora: int, zona: Option<Zona>)
      returns (r: Result<Option<Orden>, Error>)
      modifies this
      ensures (Valor(), r) == Latido(old(Valor()), rs, reportada, cfg, ahora, zona)
    {
      var conexionPrevia, versionPrevia := ultimaConexion, version;
      ultimaConexion := Some(ahora);
      if reportada.Some? { version := reportada; }
      r := Pendiente(rs, cfg, ahora, zona);
      if r == Err(NoAutorizado) {
        r := Ok(None);
      } else if r.Err? {
        ultimaConexion, version := conexionPrevia, versionPrevia;
      }
    }

    // --- FirmwareAdminService -----------------------------------------------

    method Cancelar() returns (r: Result<(), Error>)
      modifies this
      ensures (Valor(), r) == Cancelada(old(Valor()))
    {
      if estado.SinPendiente? { return Ok(()); }
      if !TransicionValida(estado, SinPendiente) { return Err(ReglaDeNegocio); }
      estado := SinPendiente;
      objetivo := None;
      aplicarDesde := None;
      intentos := 0;
      error := None;
      r := Ok(());
    }

    /** The columns a rollout writes on a row it does not skip. */
    method Pedir(release: ReleaseId, desde: int)
      modifies this
      ensures Valor() == Pedida(old(Valor()), release, desde)
    {
      objetivo := Some(release);
      estado := Programada;
      aplicarDesde := Some(desde);
      intentos := 0;
      error := None;
      reportadoEn := None;
    }

    /** What the rollback of the session leaves: the columns as they were read. */
    method Restaurar(f: Fila)
      modifies this
      ensures Valor() == f
    {
      objetivo, estado, intentos, aplicarDesde := f.objetivo, f.estado, f.intentos, f.aplicarDesde;
      version, versionAnterior, error := f.version, f.versionAnterior, f.error;
      reportadoEn, ultimaConexion, credencial := f.reportadoEn, f.ultimaConexion, f.credencial;
    }
  }

  // --- the rollout ----------------------------------------------------------

  /** One chosen gateway, with its row as read and the zone of its site if the zone is known. */
  datatype Elegido = Elegido(id: nat, numeroSerie: string, fila: Fila, zona: Option<Zona>)

  datatype Programado = Programado(id: nat, numeroSerie: string, versionAnterior: Option<string>, aplicarDesde: int, descenso: bool)
  datatype Omitido = Omitido(id: nat, numeroSerie: string, motivo: Motivo)
  datatype RolloutResult = RolloutResult(version: string, flotaActiva: bool, programados: seq<Programado>, omitidos: seq<Omitido>)

  /** What a rollout needs besides its destination. */
  datatype Pedido = Pedido(id: ReleaseId, release: Release, enseguida: bool, config: VentanaConfig, ahora: int)

  /** The zone is only needed to look for the next window. */
  function Desde(e: Elegido, p: Pedido): Option<int> {
    if p.enseguida then Some(p.ahora)
    else match e.zona
      case None => None
      case Some(z) => Some(ProximaVentana(p.ahora, p.config.hora, p.config.ventanaMinutos, z))
  }

  /** The line of the answer a chosen gateway gets. */
  datatype Suerte = Pasa(programado: Programado) | NoPasa(omitido: Omitido)

  /** What the rollout does with one chosen gateway: it fails, or gives it a line and leaves a row. */
  datatype Turno = Falla | Hace(suerte: Suerte, fila: Fila)

  function TurnoDe(e: Elegido, p: Pedido): Turno {
    match PorQueNo(e.fila, p.release)
    case Some(motivo) => Hace(NoPasa(Omitido(e.id, e.numeroSerie, motivo)), e.fila)
    case None =>
      match Desde(e, p)
      case None => Falla
      case Some(desde) =>
        Hace(Pasa(Programado(e.id, e.numeroSerie, e.fila.version, desde, EsDescenso(e.fila.version, p.release.version))),
             Pedida(e.fila, p.id, desde))
  }

  /** The turns of a whole destination. */
  function Turnos(es: seq<Elegido>, p: Pedido): (ts: seq<Turno>)
    ensures |ts| == |es| && forall i :: 0 <= i < |es| ==> ts[i] == TurnoDe(es[i], p)
  {
    seq(|es|, i requires 0 <= i < |es| => TurnoDe(es[i], p))
  }

  predicate SinFallas(ts: seq<Turno>) { forall i :: 0 <= i < |ts| ==> ts[i].Hace? }

  function Suertes(ts: seq<Turno>): seq<Suerte>
    requires SinFallas(ts)
  {
    seq(|ts|, i requires 0 <= i < |ts| => ts[i].suerte)
  }

  /** A gateway can be given the release: it does not run it, it can download it, and it is not in the
      middle of another one. */
  predicate Programable(f: Fila, r: Release) {
    !MismaVersion(f.version, Some(r.version)) && f.credencial.Some? && !f.estado.Descargando? && !f.estado.Aplicando?
  }

  /** A gateway is scheduled exactly when it can be given the release, and its row is reset to the new
      target with no attempt and no error, the rest of it staying; the others keep their row and get
      the first reason that fits. The request fails when a date is needed and the zone is unknown. */
  lemma TurnoOmiteOPrograma(e: Elegido, p: Pedido)
    ensures var f, t := e.fila, TurnoDe(e, p);
      && (t.Falla? <==> Programable(f, p.release) && !p.enseguida && e.zona.None?)
      && (t.Hace? ==> (t.suerte.Pasa? <==> Programable(f, p.release)))
      && (t.Hace? && t.suerte.NoPasa? ==>
            && t.fila == f && t.suerte.omitido.id == e.id && t.suerte.omitido.numeroSerie == e.numeroSerie
            && t.suerte.omitido.motivo ==
                 if MismaVersion(f.version, Some(p.release.version)) then YaLaCorre
                 else if f.credencial.None? then SinCredencial else EstaAplicando)
      && (t.Hace? && t.suerte.Pasa? ==>
            var linea := t.suerte.programado;
            && linea.id == e.id && linea.numeroSerie == e.numeroSerie && linea.versionAnterior == f.version
            && linea.descenso == EsDescenso(f.version, p.release.version)
            && t.fila == f.(objetivo := Some(p.id), estado := Programada, intentos := 0, error := None, reportadoEn := None,
                            aplicarDesde := Some(linea.aplicarDesde)))
  {
    PorQueNoSii(e.fila, p.release);
  }

  /** A scheduled gateway may start at once if the rollout says so. Otherwise, with the days of its
      own site in order, it starts at the first instant from now on at which a window is open there,
      exactly when three days are enough to tell. */
  lemma FechaDelRollout(e: Elegido, p: Pedido)
    requires TurnoDe(e, p).Hace? && TurnoDe(e, p).suerte.Pasa?
    ensures p.enseguida ==> TurnoDe(e, p).suerte.programado.aplicarDesde == p.ahora
    ensures !p.enseguida && DiasEnOrden(p.config.hora, e.zona.value) ==>
      var c, z := p.config, e.zona.value;
      (TresDiasBastan(p.ahora, c.hora, c.ventanaMinutos * MINUTO, z) <==>
         EsProxima(TurnoDe(e, p).suerte.programado.aplicarDesde, p.ahora, c.hora, c.ventanaMinutos * MINUTO, z))
  {
    if !p.enseguida && DiasEnOrden(p.config.hora, e.zona.value) {
      ProximaVentanaExacta(p.ahora, p.config.hora, p.config.ventanaMinutos, e.zona.value);
    }
  }

  function Programados(ss: seq<Suerte>): seq<Programado> {
    if ss == [] then []
    else
      var s := ss[|ss| - 1];
      Programados(ss[..|ss| - 1]) + if s.Pasa? then [s.programado] else []
  }

  function Omitidos(ss: seq<Suerte>): seq<Omitido> {
    if ss == [] then []
    else
      var s := ss[|ss| - 1];
      Omitidos(ss[..|ss| - 1]) + if s.NoPasa? then [s.omitido] else []
  }

  /** Every chosen gateway is in exactly one of the two lists, at the place its turn gives it:
      the i-th one is preceded there by those before it that had the same luck. */
  lemma {:induction false} RolloutParteElDestino(ss: seq<Suerte>, i: nat)
    requires i < |ss|
    ensures |Programados(ss)| + |Omitidos(ss)| == |ss|
    ensures |Programados(ss[..i])| + |Omitidos(ss[..i])| == i
    ensures ss[i].Pasa? ==>
      |Programados(ss[..i])| < |Programados(ss)|
      && Programados(ss)[|Programados(ss[..i])|] == ss[i].programado
    ensures ss[i].NoPasa? ==>
      |Omitidos(ss[..i])| < |Omitidos(ss)|
      && Omitidos(ss)[|Omitidos(ss[..i])|] == ss[i].omitido
  {
    var n := |ss| - 1;
    var previos := ss[..n];
    if i < n {
      assert previos[..i] == ss[..i];
      RolloutParteElDestino(previos, i);
    } else {
      assert ss[..i] == previos;
      if previos != [] { RolloutParteElDestino(previos, n - 1); }
    }
  }

  predicate Distintos(gs: seq<Gateway>) { forall i, j :: 0 <= i < j < |gs| ==> gs[i] != gs[j] }

  function Elegir(g: Gateway, zona: Option<Zona>): Elegido
    reads g
  {
    Elegido(g.id, g.numeroSerie, g.Valor(), zona)
  }

  /** The rows of a destination as they are read, each with the zone of its site. */
  function ElegirTodos(gs: seq<Gateway>, zonas: seq<Option<Zona>>): (es: seq<Elegido>)
    requires |zonas| == |gs|
    reads gs
    ensures |es| == |gs| && forall i :: 0 <= i < |gs| ==> es[i] == Elegir(gs[i], zonas[i])
  {
    seq(|gs|, i requires 0 <= i < |gs| reads gs => Elegir(gs[i], zonas[i]))
  }

  /** One turn of the loop: skip the gateway with a reason, or write the order on its row. */
  method PedirA(gateway: Gateway, ghost e: Elegido, zona: Option<Zona>, p: Pedido) returns (s: Option<Suerte>)
    requires e == Elegir(gateway, zona)
    modifies gateway
    ensures s.None? ==> TurnoDe(e, p).Falla? && gateway.Valor() == e.fila
    ensures s.Some? ==> TurnoDe(e, p) == Hace(s.value, gateway.Valor())
  {
    var motivo := PorQueNo(gateway.Valor(), p.release);
    if motivo.Some? {
      return Some(NoPasa(Omitido(gateway.id, gateway.numeroSerie, motivo.value)));
    }
    if !p.enseguida && zona.None? { return None; }
    var desde := if p.enseguida then p.ahora
      else ProximaVentana(p.ahora, p.config.hora, p.config.ventanaMinutos, zona.value);
    var anterior := gateway.version;
    gateway.Pedir(p.id, desde);
    s := Some(Pasa(Programado(gateway.id, gateway.numeroSerie, anterior, desde, EsDescenso(anterior, p.release.version))));
  }

  /** `ts` are the turns of a destination, each looked up only where it is named. */
  ghost predicate SonTurnos(ts: seq<Turno>, es: seq<Elegido>, p: Pedido) {
    |ts| == |es| && forall k {:trigger TurnoDe(es[k], p)} :: 0 <= k < |es| ==> ts[k] == TurnoDe(es[k], p)
  }

  /** The same turn on the i-th row of a destination: the other rows stay as they are. */
  method PedirEn(gs: seq<Gateway>, i: nat, ghost e: Elegido, ghost t: Turno, zona: Option<Zona>, p: Pedido)
    returns (s: Option<Suerte>)
    requires Distintos(gs) && i < |gs| && e == Elegir(gs[i], zona) && t == TurnoDe(e, p)
    modifies gs[i]
    ensures if s.None? then t.Falla? else t == Hace(s.value, gs[i].Valor())
    ensures forall k :: 0 <= k < |gs| && k != i ==> gs[k].Valor() == old(gs[k].Valor())
  {
    s := PedirA(gs[i], e, zona, p);
  }

  /** The loop of `rollout`, over rows as they were read. A gateway whose zone is unknown undoes
      the ones before it. */
  method PedirATodos(gs: seq<Gateway>, zonas: seq<Option<Zona>>, leidas: seq<Elegido>, ghost ts: seq<Turno>, p: Pedido)
    returns (programados: seq<Programado>, omitidos: seq<Omitido>, falla: bool)
    requires Distintos(gs) && |leidas| == |gs| == |zonas| && SonTurnos(ts, leidas, p)
    requires forall i :: 0 <= i < |gs| ==> leidas[i] == Elegir(gs[i], zonas[i])
    modifies gs
    ensures !falla <==> SinFallas(ts)
    ensures falla ==> forall i :: 0 <= i < |gs| ==> gs[i].Valor() == leidas[i].fila
    ensures !falla ==>
      && programados == Programados(Suertes(ts)) && omitidos == Omitidos(Suertes(ts))
      && forall i :: 0 <= i < |gs| ==> gs[i].Valor() == ts[i].fila
  {
    ghost var ss := [];
    programados, omitidos, falla := [], [], false;
    var i := 0;
    while i < |gs|
      invariant 0 <= i <= |gs|
      invariant |ss| == i && programados == Programados(ss) && omitidos == Omitidos(ss)
      invariant forall k :: 0 <= k < i ==> ts[k] == Hace(ss[k], gs[k].Valor())
      invariant forall k :: i <= k < |gs| ==> gs[k].Valor() == leidas[k].fila
    {
      var suerte := PedirEn(gs, i, leidas[i], ts[i], zonas[i], p);
      if suerte.None? {
        Deshacer(gs, leidas);
        falla := true;
        return;
      }
      ss := Agregar(ss, suerte.value);
      match suerte.value {
        case Pasa(programado) => programados := programados + [programado];
        case NoPasa(omitido) => omitidos := omitidos + [omitido];
      }
      i := i + 1;
    }
    assert ss == Suertes(ts);
  }

  /** What a rollout needs to go ahead: with one gateway that fails, none is given its turn. */
  predicate Procede(esAdmin: bool, rs: Catalogo, id: ReleaseId, es: seq<Elegido>, enseguida: bool,
                    cfg: Result<VentanaConfig, Error>, ahora: int)
  {
    && esAdmin && id in rs && rs[id].Disponible() && es != [] && cfg.Ok?
    && SinFallas(Turnos(es, Pedido(id, rs[id], enseguida, cfg.value, ahora)))
  }

  /** The same, gateway by gateway: nothing goes ahead while one that can be given the release needs
      a date and the zone of its site is unknown. */
  lemma ProcedeSii(esAdmin: bool, rs: Catalogo, id: ReleaseId, es: seq<Elegido>, enseguida: bool,
                   cfg: Result<VentanaConfig, Error>, ahora: int)
    ensures Procede(esAdmin, rs, id, es, enseguida, cfg, ahora) <==>
      && esAdmin && id in rs && rs[id].retiradoEn.None? && es != [] && cfg.Ok?
      && (enseguida || forall i :: 0 <= i < |es| && Programable(es[i].fila, rs[id]) ==> es[i].zona.Some?)
  {
    if esAdmin && id in rs && rs[id].Disponible() && es != [] && cfg.Ok? {
      var p := Pedido(id, rs[id], enseguida, cfg.value, ahora);
      forall i | 0 <= i < |es|
        ensures Turnos(es, p)[i].Falla? <==> Programable(es[i].fila, rs[id]) && !enseguida && es[i].zona.None?
      {
        TurnoOmiteOPrograma(es[i], p);
      }
    }
  }

  /** `rollout`. It fails as a whole, or it gives each chosen gateway its turn. */
  method Rollout(esAdmin: bool, rs: Catalogo, id: ReleaseId, gs: seq<Gateway>, zonas: seq<Option<Zona>>, enseguida: bool,
                 cfg: Result<VentanaConfig, Error>, ahora: int)
    returns (r: Result<RolloutResult, Error>)
    requires Distintos(gs) && |zonas| == |gs|
    modifies gs
    ensures r.Ok? <==> Procede(esAdmin, rs, id, old(ElegirTodos(gs, zonas)), enseguida, cfg, ahora)
    ensures r.Err? ==> forall i :: 0 <= i < |gs| ==> gs[i].Valor() == old(ElegirTodos(gs, zonas))[i].fila
    ensures r.Err? ==>
      r.error == if !esAdmin then NoAutorizado
                 else if id !in rs then NoEncontrado
                 else if rs[id].retiradoEn.Some? then ReglaDeNegocio
                 else if gs == [] then NoEncontrado
                 else if cfg.Err? then cfg.error else Interno
    ensures r.Ok? ==>
      var ts := Turnos(old(ElegirTodos(gs, zonas)), Pedido(id, rs[id], enseguida, cfg.value, ahora));
      && r.value == RolloutResult(rs[id].version, cfg.value.activo, Programados(Suertes(ts)), Omitidos(Suertes(ts)))
      && forall i :: 0 <= i < |gs| ==> gs[i].Valor() == ts[i].fila
  {
    if !esAdmin { return Err(NoAutorizado); }
    if id !in rs { return Err(NoEncontrado); }
    var release := rs[id];
    if !release.Disponible() { return Err(ReglaDeNegocio); }
    if gs == [] { return Err(NoEncontrado); }
    if cfg.Err? { return Err(cfg.error); }
    var config := cfg.value;
    var pedido := Pedido(id, release, enseguida, config, ahora);
    var leidas := ElegirTodos(gs, zonas);
    var programados, omitidos, falla := PedirATodos(gs, zonas, leidas, Turnos(leidas, pedido), pedido);
    if falla { return Err(Interno); }
    r := Ok(RolloutResult(release.version, config.activo, programados, omitidos));
  }

  ghost function Agregar(ss: seq<Suerte>, s: Suerte): (r: seq<Suerte>)
    ensures r == ss + [s]
    ensures Programados(r) == Programados(ss) + (if s.Pasa? then [s.programado] else [])
    ensures Omitidos(r) == Omitidos(ss) + (if s.NoPasa? then [s.omitido] else [])
  {
    assert (ss + [s])[..|ss|] == ss;
    ss + [s]
  }

  /** The rollback: every row is again what was read. */
  method Deshacer(gs: seq<Gateway>, leidas: seq<Elegido>)
    requires Distintos(gs) && |leidas| == |gs|
    modifies gs
    ensures forall i :: 0 <= i < |gs| ==> gs[i].Valor() == leidas[i].fila
  {
    var i := 0;
    while i < |gs|
      invariant 0 <= i <= |gs|
      invariant forall k :: 0 <= k < i ==> gs[k].Valor() == leidas[k].fila
    {
      gs[i].Restaurar(leidas[i].fila);
      i := i + 1;
    }
  }
}
