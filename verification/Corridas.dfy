/** Whole runs of the update protocol for one gateway: the panel, the device's questions, and
    acks that the network may delay, repeat or reorder. Any ack may arrive at any time with any
    text, so every delivery order is one of the runs below. */
module Corridas {
  import opened Wrappers
  import opened Texto
  import opened Versiones
  import opened ConfigFlota
  import opened Ventana
  import opened Actualizacion
  import opened Traza
  import Servicio

  /** The release catalogue and the gateway's row. */
  datatype Nodo = Nodo(releases: Catalogo, fila: Fila)

  datatype Evento =
    | Publicar(id: ReleaseId, release: Release)
    | Retirar(id: ReleaseId, ahora: int)
    | Desplegar(id: ReleaseId, enseguida: bool, cfg: Result<VentanaConfig, Error>, ahora: int, zona: Option<Zona>)
    | Cancelar
    | Consultar(cfg: Result<VentanaConfig, Error>, ahora: int, zona: Option<Zona>)
    | Latir(reportada: Option<string>, cfg: Result<VentanaConfig, Error>, ahora: int, zona: Option<Zona>)
    | Acusar(estado: Estado, version: string, error: Option<string>, ahora: int)
    | EditarVersion(nueva: Option<string>)
    | Credencial(hash: Option<string>)

  /** A rollout that reaches this gateway and is not rejected. */
  predicate Acepta(n: Nodo, e: Evento) {
    && e.Desplegar? && e.cfg.Ok?
    && e.id in n.releases && n.releases[e.id].Disponible()
    && PorQueNo(n.fila, n.releases[e.id]).None?
    && (e.enseguida || e.zona.Some?)
  }

  function Paso(n: Nodo, e: Evento): Nodo {
    match e
    case Publicar(id, r) =>
      var texto := Strip(r.version);
      if id !in n.releases && ParseVersion(texto).Ok? && (forall k :: k in n.releases ==> n.releases[k].version != texto)
      then n.(releases := n.releases[id := r.(version := texto, retiradoEn := None)]) else n
    case Retirar(id, ahora) =>
      if id in n.releases && n.releases[id].Disponible()
      then n.(releases := n.releases[id := n.releases[id].(retiradoEn := Some(ahora))]) else n
    case Desplegar(id, enseguida, cfg, ahora, zona) =>
      if Acepta(n, e) then
        n.(fila := Pedida(n.fila, id,
             if enseguida then ahora else ProximaVentana(ahora, cfg.value.hora, cfg.value.ventanaMinutos, zona.value)))
      else n
    case Cancelar => n.(fila := Cancelada(n.fila).0)
    case Consultar(cfg, ahora, zona) => n.(fila := Consulta(n.fila, n.releases, cfg, ahora, zona).0)
    case Latir(reportada, cfg, ahora, zona) => n.(fila := Latido(n.fila, n.releases, reportada, cfg, ahora, zona).0)
    case Acusar(estado, version, error, ahora) => n.(fila := Acuse(n.fila, n.releases, estado, version, error, ahora).0)
    case EditarVersion(nueva) => n.(fila := n.fila.(version := nueva))
    case Credencial(hash) => n.(fila := n.fila.(credencial := hash))
  }

  lemma PasoAcusar(n: Nodo, estado: Estado, version: string, error: Option<string>, ahora: int)
    ensures Paso(n, Acusar(estado, version, error, ahora)) == n.(fila := Acuse(n.fila, n.releases, estado, version, error, ahora).0)
  {}

  lemma PasoConsultar(n: Nodo, cfg: Result<VentanaConfig, Error>, ahora: int, zona: Option<Zona>)
    ensures Paso(n, Consultar(cfg, ahora, zona)) == n.(fila := Consulta(n.fila, n.releases, cfg, ahora, zona).0)
  {}

  /** `tr` is the run of `es`: the state before each event, and the last one. */
  ghost predicate Corrida(tr: seq<Nodo>, es: seq<Evento>) {
    |tr| == |es| + 1 && forall i {:trigger Paso(tr[i], es[i])} :: 0 <= i < |es| ==> tr[i + 1] == Paso(tr[i], es[i])
  }

  /** A gateway with nothing pending, and a catalogue whose versions can be read. */
  ghost predicate Inicial(n: Nodo) {
    && n.fila.objetivo.None? && n.fila.estado.SinPendiente? && n.fila.aplicarDesde.None? && n.fila.intentos == 0
    && forall id :: id in n.releases ==> ParseVersion(n.releases[id].version).Ok?
  }

  /** The event a gateway sees is its turn in the rollout: the loop over the destination and the
      runs below speak of the same step. */
  lemma DesplegarEsElTurno(n: Nodo, e: Evento, g: nat, serie: string)
    requires e.Desplegar? && e.cfg.Ok? && e.id in n.releases && n.releases[e.id].Disponible()
    ensures var t := Servicio.TurnoDe(Servicio.Elegido(g, serie, n.fila, e.zona),
                                      Servicio.Pedido(e.id, n.releases[e.id], e.enseguida, e.cfg.value, e.ahora));
      && (Acepta(n, e) <==> t.Hace? && t.suerte.Pasa?)
      && Paso(n, e) == n.(fila := if t.Hace? then t.fila else n.fila)
  {}

  // --- the ways a request can move the row ----------------------------------

  lemma ConsultaMueve(f: Fila, rs: Catalogo, cfg: Result<VentanaConfig, Error>, ahora: int, zona: Option<Zona>)
    ensures MueveSinPedido(f, Consulta(f, rs, cfg, ahora, zona).0)
  {
  }

  lemma LatidoMueve(f: Fila, rs: Catalogo, reportada: Option<string>, cfg: Result<VentanaConfig, Error>, ahora: int, zona: Option<Zona>)
    ensures MueveSinPedido(f, Latido(f, rs, reportada, cfg, ahora, zona).0)
  {
    var g := Contactada(f, reportada, ahora);
    assert Quieta(f, g);
    ConsultaMueve(g, rs, cfg, ahora, zona);
  }

  lemma AcuseMueve(f: Fila, rs: Catalogo, estado: Estado, version: string, error: Option<string>, ahora: int)
    ensures MueveSinPedido(f, Acuse(f, rs, estado, version, error, ahora).0)
  {
    var (b, r) := Acuse(f, rs, estado, version, error, ahora);
    if r.Ok? { assert Acusada(f, b); }
  }

  /** Every event but an accepted rollout moves the row in one of five ways. */
  lemma PasoMueve(n: Nodo, e: Evento)
    ensures if Acepta(n, e) then Iniciada(n.fila, Paso(n, e).fila) else MueveSinPedido(n.fila, Paso(n, e).fila)
  {
    match e
    case Consultar(cfg, ahora, zona) => ConsultaMueve(n.fila, n.releases, cfg, ahora, zona);
    case Latir(reportada, cfg, ahora, zona) => LatidoMueve(n.fila, n.releases, reportada, cfg, ahora, zona);
    case Acusar(estado, version, error, ahora) => AcuseMueve(n.fila, n.releases, estado, version, error, ahora);
    case _ =>
  }

  // --- the catalogue --------------------------------------------------------

  ghost predicate CatalogoLegible(rs: Catalogo) {
    forall id :: id in rs ==> ParseVersion(rs[id].version).Ok?
  }

  /** A release is published exactly when it is new, its version can be read and no other has the same
      text; it is offered from then on. Retiring one takes it off offer, once, and changes no other. */
  lemma CatalogoTras(n: Nodo, id: ReleaseId, release: Release, ahora: int)
    ensures var m := Paso(n, Publicar(id, release));
      && m.fila == n.fila
      && if id !in n.releases && ParseVersion(release.version).Ok?
            && (forall k :: k in n.releases ==> n.releases[k].version != Strip(release.version))
         then m.releases == n.releases[id := Release(Strip(release.version), release.sha256, release.tamano, release.notas, None)]
         else m.releases == n.releases
    ensures var m := Paso(n, Retirar(id, ahora));
      && m.fila == n.fila && m.releases.Keys == n.releases.Keys
      && forall k :: k in n.releases ==>
           m.releases[k] == if k == id && n.releases[k].retiradoEn.None? then n.releases[k].(retiradoEn := Some(ahora)) else n.releases[k]
  {
    StripRecorta(release.version);
  }

  lemma PasoConservaCatalogo(n: Nodo, e: Evento)
    ensures n.releases.Keys <= Paso(n, e).releases.Keys
    ensures forall id :: id in n.releases ==> Paso(n, e).releases[id].version == n.releases[id].version
    ensures CatalogoLegible(n.releases) ==> CatalogoLegible(Paso(n, e).releases)
  {}

  ghost predicate ObjetivoExiste(n: Nodo) { n.fila.objetivo.Some? ==> n.fila.objetivo.value in n.releases }

  lemma PasoConservaObjetivo(n: Nodo, e: Evento)
    requires ObjetivoExiste(n)
    ensures ObjetivoExiste(Paso(n, e))
  {
    PasoMueve(n, e);
    PasoConservaCatalogo(n, e);
    assert Acepta(n, e) ==> Paso(n, e).fila.objetivo == Some(e.id) && Paso(n, e).releases == n.releases;
  }

  // --- every run is a trace of the moves ------------------------------------

  ghost function Filas(tr: seq<Nodo>): (fs: seq<Fila>)
    ensures |fs| == |tr| && forall i :: 0 <= i < |tr| ==> fs[i] == tr[i].fila
  {
    seq(|tr|, i requires 0 <= i < |tr| => tr[i].fila)
  }

  ghost function Pedidos(tr: seq<Nodo>, es: seq<Evento>): (ps: seq<bool>)
    requires |tr| == |es| + 1
    ensures |ps| == |es| && forall i :: 0 <= i < |es| ==> ps[i] == Acepta(tr[i], es[i])
  {
    seq(|es|, i requires 0 <= i < |es| => Acepta(tr[i], es[i]))
  }

  /** Requests from the panel and from the device, in any order, make only the moves of `Traza`;
      so everything proved there about traces holds of every run. */
  lemma CorridaEsTraza(tr: seq<Nodo>, es: seq<Evento>)
    requires Corrida(tr, es) && Inicial(tr[0])
    ensures EsTraza(Filas(tr), Pedidos(tr, es))
  {
    var fs, ps := Filas(tr), Pedidos(tr, es);
    forall i | 0 <= i < |ps|
      ensures if ps[i] then Iniciada(fs[i], fs[i + 1]) else MueveSinPedido(fs[i], fs[i + 1])
    {
      assert tr[i + 1] == Paso(tr[i], es[i]);
      PasoMueve(tr[i], es[i]);
    }
  }

  /** The unwritten invariants, in every reachable state: no target, no date and "nothing
      pending" are the same thing; at most three attempts are spent, and a scheduled gateway has
      one left; the target is in the catalogue, and every version in it can be read. */
  lemma {:induction false} InvarianteSiempre(tr: seq<Nodo>, es: seq<Evento>, i: nat)
    requires Corrida(tr, es) && Inicial(tr[0]) && i < |tr|
    ensures InvFila(tr[i].fila) && ObjetivoExiste(tr[i]) && CatalogoLegible(tr[i].releases)
  {
    assert InvFila(tr[i].fila) by {
      CorridaEsTraza(tr, es);
      InvSiempre(Filas(tr), Pedidos(tr, es), i);
    }
    if i > 0 {
      InvarianteSiempre(tr, es, i - 1);
      assert tr[i] == Paso(tr[i - 1], es[i - 1]);
      PasoConservaObjetivo(tr[i - 1], es[i - 1]);
      PasoConservaCatalogo(tr[i - 1], es[i - 1]);
    }
  }

  /** In every run each request moves the state along an edge of the table or not at all; and
      between the restart of a device and its outcome nobody changes its target or its attempts. */
  lemma TransicionSiempreValida(tr: seq<Nodo>, es: seq<Evento>, i: nat)
    requires Corrida(tr, es) && Inicial(tr[0]) && i < |es|
    ensures Arista(tr[i].fila.estado, tr[i + 1].fila.estado)
    ensures tr[i].fila.estado.Aplicando? ==>
      && tr[i + 1].fila.objetivo == tr[i].fila.objetivo && tr[i + 1].fila.intentos == tr[i].fila.intentos
      && (tr[i + 1].fila.estado.Aplicando? || tr[i + 1].fila.estado.Aplicada? || tr[i + 1].fila.estado.Fallida?)
  {
    CorridaEsTraza(tr, es);
    AristaSiempre(Filas(tr), Pedidos(tr, es), i);
  }

  /** In a reachable state an order always finds a date on the row: the branch of `_vigente`
      for a missing one is dead. */
  lemma SiempreHayFecha(tr: seq<Nodo>, es: seq<Evento>, i: nat)
    requires Corrida(tr, es) && Inicial(tr[0]) && i < |tr|
    ensures Objetivo(tr[i].fila, tr[i].releases).Some? <==> tr[i].fila.aplicarDesde.Some?
  {
    InvarianteSiempre(tr, es, i);
  }

  /** Attempts, restarts and changes of state of one rollout, in every run. */
  lemma RolloutAcotado(tr: seq<Nodo>, es: seq<Evento>, i: nat, j: nat)
    requires Corrida(tr, es) && Inicial(tr[0]) && i < j <= |es|
    requires Acepta(tr[i], es[i]) && forall k :: i < k < j ==> !Acepta(tr[k], es[k])
    ensures var fs := Filas(tr);
      && (tr[j].fila.objetivo.Some? ==> tr[j].fila.intentos == Cuenta(fs, i + 1, j, DESCARGA))
      && Cuenta(fs, i + 1, j, REINICIO) <= Cuenta(fs, i + 1, j, DESCARGA) <= MAX_INTENTOS
      && Cuenta(fs, i + 1, j, CAMBIO)
           <= (if tr[j].fila.objetivo.Some? then 11 else 12) + 2 * Cuenta(fs, i + 1, j, FALLO_TEMPRANO)
  {
    var fs, ps := Filas(tr), Pedidos(tr, es);
    CorridaEsTraza(tr, es);
    IntentosSonDescargas(fs, ps, i, j);
    OnceCambios(fs, ps, i, j);
  }

  // --- the end of an update -------------------------------------------------

  /** Every step into `Aplicada` leaves the gateway running the target's version. */
  lemma AplicadaCorreElObjetivo(n: Nodo, e: Evento)
    requires !n.fila.estado.Aplicada? && Paso(n, e).fila.estado.Aplicada?
    ensures var m := Paso(n, e);
      && Objetivo(m.fila, m.releases).Some?
      && MismaVersion(m.fila.version, Some(Objetivo(m.fila, m.releases).value.version))
  {
    match e
    case Acusar(estado, version, error, ahora) =>
      AcuseAceptadoSii(n.fila, n.releases, estado, version, error, ahora);
      NormalizarEsCanonica(Objetivo(n.fila, n.releases).value.version);
    case _ =>
  }

  lemma SinOrdenFueraDeCurso(f: Fila, rs: Catalogo, cfg: Result<VentanaConfig, Error>, ahora: int, zona: Option<Zona>)
    requires !EnCurso(f.estado)
    ensures Consulta(f, rs, cfg, ahora, zona).1.Ok? ==> Consulta(f, rs, cfg, ahora, zona).1.value.None?
  {}

  /** From then on, and until another rollout, no question is answered with an order. */
  lemma AplicadaSinOrdenes(tr: seq<Nodo>, es: seq<Evento>, i: nat, j: nat,
                           cfg: Result<VentanaConfig, Error>, ahora: int, zona: Option<Zona>)
    requires Corrida(tr, es) && Inicial(tr[0]) && i <= j <= |es|
    requires tr[i].fila.estado.Aplicada? && forall k :: i <= k < j ==> !Acepta(tr[k], es[k])
    ensures Consulta(tr[j].fila, tr[j].releases, cfg, ahora, zona).1.Ok? ==>
      Consulta(tr[j].fila, tr[j].releases, cfg, ahora, zona).1.value.None?
  {
    assert !EnCurso(tr[j].fila.estado) by {
      CorridaEsTraza(tr, es);
      AplicadaNoVuelve(Filas(tr), Pedidos(tr, es), i, j);
    }
    SinOrdenFueraDeCurso(tr[j].fila, tr[j].releases, cfg, ahora, zona);
  }

  // --- nobody is left waiting -----------------------------------------------

  /** When a question gets an order, in any reachable state: what the gateway has been asked is
      always there, and one that is scheduled always has an attempt left. However many windows it
      slept through, a scheduled gateway that is offered a release it does not run gets its order at
      the next question with updates on, as long as the zone of its site is known. */
  lemma PreguntaOrdenaSii(tr: seq<Nodo>, es: seq<Evento>, i: nat, c: VentanaConfig, ahora: int, zona: Option<Zona>)
    requires Corrida(tr, es) && Inicial(tr[0]) && i < |tr|
    ensures var f, rs := tr[i].fila, tr[i].releases;
      var r := Consulta(f, rs, Ok(c), ahora, zona).1;
      && (f.estado.SinPendiente? || (f.objetivo.Some? && f.objetivo.value in rs && f.aplicarDesde.Some?))
      && (r.Ok? && r.value.Some? <==>
            && c.activo
            && (f.estado.Programada? || ((f.estado.Descargando? || f.estado.Aplicando? || f.estado.Fallida?) && f.intentos < 3))
            && rs[f.objetivo.value].retiradoEn.None? && !MismaVersion(f.version, Some(rs[f.objetivo.value].version))
            && (zona.Some? || ahora < f.aplicarDesde.value + c.ventanaMinutos * MINUTO))
  {
    InvarianteSiempre(tr, es, i);
    OrdenSii(tr[i].fila, tr[i].releases, c, ahora, zona);
  }

  // --- what becomes of the target -------------------------------------------

  /** The request takes the target away. No one else's does, short of another rollout. */
  predicate Suelta(n: Nodo, e: Evento) {
    || (e.Cancelar? && !n.fila.estado.Aplicando?)
    || ((e.Consultar? || e.Latir?) && SueltaPorRetiro(n.fila, n.releases, e.cfg))
  }

  lemma LatidoSuelta(f: Fila, rs: Catalogo, reportada: Option<string>, cfg: Result<VentanaConfig, Error>, ahora: int, zona: Option<Zona>)
    requires Objetivo(f, rs).Some?
    ensures Latido(f, rs, reportada, cfg, ahora, zona).0.objetivo == f.objetivo <==> !SueltaPorRetiro(f, rs, cfg)
  {
    var g := Contactada(f, reportada, ahora);
    assert Objetivo(g, rs) == Objetivo(f, rs);
    RetiroSuelta(g, rs, cfg, ahora, zona);
  }

  lemma PasoSueltaSii(n: Nodo, e: Evento)
    requires InvFila(n.fila) && ObjetivoExiste(n) && !Acepta(n, e) && n.fila.objetivo.Some?
    ensures Paso(n, e).fila.objetivo == if Suelta(n, e) then None else n.fila.objetivo
  {
    PasoMueve(n, e);
    match e
    case Consultar(cfg, ahora, zona) => RetiroSuelta(n.fila, n.releases, cfg, ahora, zona);
    case Latir(reportada, cfg, ahora, zona) => LatidoSuelta(n.fila, n.releases, reportada, cfg, ahora, zona);
    case Cancelar => CancelarSuelta(n.fila);
    case _ =>
  }

  lemma SinObjetivoSigue(n: Nodo, e: Evento)
    requires InvFila(n.fila) && !Acepta(n, e) && n.fila.objetivo.None?
    ensures Paso(n, e).fila.objetivo.None?
  {
    PasoMueve(n, e);
  }

  lemma PasoDeObjetivo(tr: seq<Nodo>, es: seq<Evento>, j: nat)
    requires Corrida(tr, es) && Inicial(tr[0]) && j < |es| && !Acepta(tr[j], es[j])
    ensures tr[j + 1].fila.objetivo == if Suelta(tr[j], es[j]) then None else tr[j].fila.objetivo
  {
    InvarianteSiempre(tr, es, j);
    assert tr[j + 1] == Paso(tr[j], es[j]);
    if tr[j].fila.objetivo.Some? {
      PasoSueltaSii(tr[j], es[j]);
    } else {
      SinObjetivoSigue(tr[j], es[j]);
    }
  }

  lemma {:induction false} ObjetivoHasta(fs: seq<Fila>, qs: seq<bool>, i: nat, j: nat)
    requires |fs| == |qs| + 1 && i <= j <= |qs|
    requires forall k :: i <= k < j ==>
      fs[k + 1].objetivo == if qs[k] || fs[k].objetivo.None? then None else fs[k].objetivo
    ensures fs[j].objetivo == if exists k :: i <= k < j && qs[k] then None else fs[i].objetivo
  {
    if i < j { ObjetivoHasta(fs, qs, i, j - 1); }
  }

  /** Which steps of a run take the target away. */
  ghost function Sueltas(tr: seq<Nodo>, es: seq<Evento>): (qs: seq<bool>)
    requires |tr| == |es| + 1
    ensures |qs| == |es| && forall k :: 0 <= k < |es| ==> qs[k] == Suelta(tr[k], es[k])
  {
    seq(|es|, k requires 0 <= k < |es| => Suelta(tr[k], es[k]))
  }

  /** Between rollouts a target stays until some request takes it away, and is gone from then on. */
  lemma ObjetivoSigueSii(tr: seq<Nodo>, es: seq<Evento>, i: nat, j: nat)
    requires Corrida(tr, es) && Inicial(tr[0]) && i <= j <= |es|
    requires forall k :: i <= k < j ==> !Acepta(tr[k], es[k])
    ensures tr[j].fila.objetivo ==
      if exists k :: i <= k < j && Sueltas(tr, es)[k] then None else tr[i].fila.objetivo
  {
    forall k | i <= k < j
      ensures tr[k + 1].fila.objetivo == if Sueltas(tr, es)[k] then None else tr[k].fila.objetivo
    {
      PasoDeObjetivo(tr, es, k);
    }
    ObjetivoHasta(Filas(tr), Sueltas(tr, es), i, j);
  }

  /** A question asked with updates on, once the release is retired. */
  predicate PreguntaTrasElRetiro(n: Nodo, e: Evento, id: ReleaseId) {
    (e.Consultar? || e.Latir?) && e.cfg.Ok? && e.cfg.value.activo && id in n.releases && !n.releases[id].Disponible()
  }

  /** The steps at which somebody cancels, or asks with updates on after the release is retired. */
  ghost function Abandonos(tr: seq<Nodo>, es: seq<Evento>, id: ReleaseId): (qs: seq<bool>)
    requires |tr| == |es| + 1
    ensures |qs| == |es|
    ensures forall k :: 0 <= k < |es| ==> qs[k] == (es[k].Cancelar? || PreguntaTrasElRetiro(tr[k], es[k], id))
  {
    seq(|es|, k requires 0 <= k < |es| => es[k].Cancelar? || PreguntaTrasElRetiro(tr[k], es[k], id))
  }

  lemma AbandonoSuelta(n: Nodo, e: Evento, id: ReleaseId)
    requires !n.fila.estado.Aplicando? && n.fila.objetivo == Some(id) && ObjetivoExiste(n)
    ensures Suelta(n, e) <==> e.Cancelar? || PreguntaTrasElRetiro(n, e, id)
  {}

  lemma PasoDeAplicada(tr: seq<Nodo>, es: seq<Evento>, i: nat, k: nat, id: ReleaseId)
    requires Corrida(tr, es) && Inicial(tr[0]) && i <= k < |es|
    requires tr[i].fila.estado.Aplicada? && tr[i].fila.objetivo == Some(id)
    requires forall h :: i <= h <= k ==> !Acepta(tr[h], es[h])
    ensures tr[k + 1].fila.objetivo ==
      if Abandonos(tr, es, id)[k] || tr[k].fila.objetivo.None? then None else tr[k].fila.objetivo
  {
    assert tr[k].fila.objetivo.None? || tr[k].fila.objetivo == Some(id) by { ObjetivoSigueSii(tr, es, i, k); }
    assert !tr[k].fila.estado.Aplicando? by { NoReinicia(tr, es, i, k); }
    PasoDeObjetivo(tr, es, k);
    if tr[k].fila.objetivo == Some(id) {
      assert ObjetivoExiste(tr[k]) by { InvarianteSiempre(tr, es, k); }
      AbandonoSuelta(tr[k], es[k], id);
    }
  }

  lemma PasosDeAplicada(tr: seq<Nodo>, es: seq<Evento>, i: nat, j: nat, id: ReleaseId)
    requires Corrida(tr, es) && Inicial(tr[0]) && i <= j <= |es|
    requires tr[i].fila.estado.Aplicada? && tr[i].fila.objetivo == Some(id)
    requires forall k :: i <= k < j ==> !Acepta(tr[k], es[k])
    ensures var fs, qs := Filas(tr), Abandonos(tr, es, id);
      forall k :: i <= k < j ==> fs[k + 1].objetivo == if qs[k] || fs[k].objetivo.None? then None else fs[k].objetivo
  {
    forall k | i <= k < j
      ensures tr[k + 1].fila.objetivo ==
        if Abandonos(tr, es, id)[k] || tr[k].fila.objetivo.None? then None else tr[k].fila.objetivo
    {
      PasoDeAplicada(tr, es, i, k, id);
    }
  }

  /** What becomes of a gateway that installed a release, against what retiring one promises: until
      another rollout it keeps pointing to the release exactly as long as nobody cancels and no
      question is asked with updates on after the release is retired. */
  lemma AplicadaConservaSii(tr: seq<Nodo>, es: seq<Evento>, i: nat, j: nat, id: ReleaseId)
    requires Corrida(tr, es) && Inicial(tr[0]) && i <= j <= |es|
    requires tr[i].fila.estado.Aplicada? && tr[i].fila.objetivo == Some(id)
    requires forall k :: i <= k < j ==> !Acepta(tr[k], es[k])
    ensures tr[j].fila.objetivo == Some(id) <==> forall k :: i <= k < j ==> !Abandonos(tr, es, id)[k]
  {
    PasosDeAplicada(tr, es, i, j, id);
    ObjetivoHasta(Filas(tr), Abandonos(tr, es, id), i, j);
  }

  lemma NoReinicia(tr: seq<Nodo>, es: seq<Evento>, i: nat, k: nat)
    requires Corrida(tr, es) && Inicial(tr[0]) && i <= k <= |es| && tr[i].fila.estado.Aplicada?
    requires forall h :: i <= h < k ==> !Acepta(tr[h], es[h])
    ensures !tr[k].fila.estado.Aplicando?
  {
    CorridaEsTraza(tr, es);
    AplicadaNoVuelve(Filas(tr), Pedidos(tr, es), i, k);
  }

  // --- concessions ----------------------------------------------------------

  /** The question an event asks, when it asks one, gives concessions of at least `v` minutes
      and finds a clock that is not about to be put forward by more than a day. */
  ghost predicate PreguntaRegular(e: Evento, v: int) {
    e.Consultar? || e.Latir? ==>
      && (e.cfg.Ok? ==> v <= e.cfg.value.ventanaMinutos)
      && (e.cfg.Ok? && e.zona.Some? ==> SinSaltoDeMasDeUnDia(e.ahora, e.cfg.value.hora, e.zona.value))
  }

  /** A later concession starts when the earlier one is over. */
  ghost predicate MismaOPosterior(a: Option<int>, b: Option<int>, v: int) {
    b.Some? ==> a.Some? && (b == a || a.value + v * MINUTO <= b.value)
  }

  lemma VentanaNueva(f: Fila, c: VentanaConfig, ahora: int, zona: Option<Zona>)
    requires f.aplicarDesde.Some? && ConVentana(f, c, ahora, zona).Ok?
    requires zona.Some? ==> SinSaltoDeMasDeUnDia(ahora, c.hora, zona.value)
    ensures MismaOPosterior(f.aplicarDesde, ConVentana(f, c, ahora, zona).value.aplicarDesde, c.ventanaMinutos)
  {
    if !Vigente(f, c.ventanaMinutos, ahora) {
      ProximaNoEsPasada(ahora, c.hora, c.ventanaMinutos, zona.value);
    }
  }

  lemma ConsultaConcede(f: Fila, rs: Catalogo, cfg: Result<VentanaConfig, Error>, ahora: int, zona: Option<Zona>, v: int)
    requires InvFila(f) && (cfg.Ok? ==> v <= cfg.value.ventanaMinutos)
    requires cfg.Ok? && zona.Some? ==> SinSaltoDeMasDeUnDia(ahora, cfg.value.hora, zona.value)
    ensures MismaOPosterior(f.aplicarDesde, Consulta(f, rs, cfg, ahora, zona).0.aplicarDesde, v)
  {
    if cfg.Ok? && f.aplicarDesde.Some? && ConVentana(f, cfg.value, ahora, zona).Ok? {
      VentanaNueva(f, cfg.value, ahora, zona);
    }
  }

  lemma PasoConcede(n: Nodo, e: Evento, v: int)
    requires InvFila(n.fila) && !Acepta(n, e) && PreguntaRegular(e, v)
    ensures MismaOPosterior(n.fila.aplicarDesde, Paso(n, e).fila.aplicarDesde, v)
  {
    match e
    case Consultar(cfg, ahora, zona) => ConsultaConcede(n.fila, n.releases, cfg, ahora, zona, v);
    case Latir(reportada, cfg, ahora, zona) =>
      ConsultaConcede(Contactada(n.fila, reportada, ahora), n.releases, cfg, ahora, zona, v);
    case _ =>
      PasoMueve(n, e);
  }

  lemma {:induction false} Encadenadas(fs: seq<Fila>, i: nat, j: nat, v: int)
    requires i <= j < |fs| && v >= 1
    requires forall k :: i <= k < j ==> MismaOPosterior(fs[k].aplicarDesde, fs[k + 1].aplicarDesde, v)
    ensures MismaOPosterior(fs[i].aplicarDesde, fs[j].aplicarDesde, v)
  {
    if i < j { Encadenadas(fs, i, j - 1, v); }
  }

  lemma PasoDeCorridaConcede(tr: seq<Nodo>, es: seq<Evento>, j: nat, v: int)
    requires Corrida(tr, es) && Inicial(tr[0]) && j < |es| && !Acepta(tr[j], es[j]) && PreguntaRegular(es[j], v)
    ensures MismaOPosterior(tr[j].fila.aplicarDesde, tr[j + 1].fila.aplicarDesde, v)
  {
    InvarianteSiempre(tr, es, j);
    PasoConcede(tr[j], es[j], v);
    assert tr[j + 1] == Paso(tr[j], es[j]);
  }

  /** Between rollouts, any two concessions a row ever shows are the same, or the later one
      starts once the earlier is over; `v` is a length no question goes below. */
  lemma ConcesionesDisjuntas(tr: seq<Nodo>, es: seq<Evento>, i: nat, j: nat, v: int)
    requires Corrida(tr, es) && Inicial(tr[0]) && i <= j <= |es| && v >= 1
    requires forall k :: i <= k < j ==> !Acepta(tr[k], es[k]) && PreguntaRegular(es[k], v)
    ensures MismaOPosterior(tr[i].fila.aplicarDesde, tr[j].fila.aplicarDesde, v)
  {
    forall k | i <= k < j
      ensures MismaOPosterior(tr[k].fila.aplicarDesde, tr[k + 1].fila.aplicarDesde, v)
    {
      PasoDeCorridaConcede(tr, es, k, v);
    }
    Encadenadas(Filas(tr), i, j, v);
  }

  // --- late, repeated and reordered acks ------------------------------------

  /** Progress that acks alone can write: never back, and one attempt begun at most. */
  ghost predicate NoRetrocede(f: Fila, g: Fila) {
    && g.objetivo == f.objetivo && g.aplicarDesde == f.aplicarDesde
    && Rango(f.estado) <= Rango(g.estado) && (g.estado == f.estado || Reportable(g.estado))
    && (g.intentos == f.intentos
        || (g.intentos == f.intentos + 1 && f.estado.Programada? && Rango(g.estado) >= Rango(Descargando)))
  }

  /** Whatever acks arrive between two questions, in whatever order and however often, the
      progress written never goes back, and at most one attempt is counted. */
  lemma {:induction false} AcusesNoRetroceden(tr: seq<Nodo>, es: seq<Evento>, i: nat, j: nat)
    requires Corrida(tr, es) && i <= j <= |es|
    requires forall k :: i <= k < j ==> es[k].Acusar?
    ensures NoRetrocede(tr[i].fila, tr[j].fila)
  {
    if i < j {
      AcusesNoRetroceden(tr, es, i, j - 1);
      UnAcuseMas(tr[i].fila, tr[j - 1], es[j - 1]);
      assert tr[j] == Paso(tr[j - 1], es[j - 1]);
    }
  }

  ghost predicate Avanza(f: Fila, g: Fila) {
    && g.objetivo == f.objetivo && g.aplicarDesde == f.aplicarDesde
    && Rango(f.estado) <= Rango(g.estado) && (g.estado == f.estado || Reportable(g.estado))
    && (g.intentos == f.intentos || (g.intentos == f.intentos + 1 && f.estado.Programada? && g.estado.Descargando?))
  }

  lemma AvanzaTras(f: Fila, g: Fila, h: Fila)
    requires NoRetrocede(f, g) && Avanza(g, h)
    ensures NoRetrocede(f, h)
  {}

  lemma UnAcuseMas(f: Fila, n: Nodo, e: Evento)
    requires e.Acusar? && NoRetrocede(f, n.fila)
    ensures NoRetrocede(f, Paso(n, e).fila)
  {
    AcuseSoloAvanza(n.fila, n.releases, e.estado, e.version, e.error, e.ahora);
    AvanzaTras(f, n.fila, Paso(n, e).fila);
  }

  lemma AcuseSoloAvanza(f: Fila, rs: Catalogo, estado: Estado, version: string, error: Option<string>, ahora: int)
    ensures Avanza(f, Acuse(f, rs, estado, version, error, ahora).0)
  {
    var (g, r) := Acuse(f, rs, estado, version, error, ahora);
    if r.Ok? {
      assert Acusada(f, g);
      AcusadaAvanza(f, g);
    }
  }

  lemma AcusadaAvanza(f: Fila, g: Fila)
    requires Acusada(f, g)
    ensures Avanza(f, g)
  {}
}
