/** Runs of a whole fleet: one catalogue, many gateways, and rollouts that reach several of them at
    once and are undone for all when one fails. Seen from any gateway they are runs of `Corridas`. */
module Planta {
  import opened Wrappers
  import opened ConfigFlota
  import opened Ventana
  import opened Actualizacion
  import opened Servicio
  import opened Traza
  import opened Corridas

  /** The catalogue and the row of every gateway. */
  datatype Fleet = Fleet(releases: Catalogo, filas: map<nat, Fila>)

  /** One gateway a rollout is sent to, with the zone of its site if the zone is known. */
  datatype Destino = Destino(gateway: nat, numeroSerie: string, zona: Option<Zona>)

  datatype Suceso =
    | Crea(gateway: nat, version: Option<string>)
    | Publica(id: ReleaseId, release: Release)
    | Retira(id: ReleaseId, ahora: int)
    | Despliega(esAdmin: bool, id: ReleaseId, destino: seq<Destino>, enseguida: bool,
                cfg: Result<VentanaConfig, Error>, ahora: int)
    | DeUno(gateway: nat, evento: Evento)

  /** A gateway is created under a new key. A destination names gateways of the fleet, each once.
      What happens to one gateway is anything but a rollout or a change of the catalogue. */
  predicate Sensato(f: Fleet, s: Suceso) {
    match s
    case Despliega(_, _, destino, _, _, _) =>
      && (forall i :: 0 <= i < |destino| ==> destino[i].gateway in f.filas)
      && (forall i, j :: 0 <= i < j < |destino| ==> destino[i].gateway != destino[j].gateway)
    case Crea(g, _) => g !in f.filas
    case DeUno(g, e) => g in f.filas && !e.Publicar? && !e.Retirar? && !e.Desplegar?
    case _ => true
  }

  function Elegidos(f: Fleet, destino: seq<Destino>): (es: seq<Elegido>)
    requires forall i :: 0 <= i < |destino| ==> destino[i].gateway in f.filas
    ensures |es| == |destino|
  {
    seq(|destino|, i requires 0 <= i < |destino| =>
      Elegido(destino[i].gateway, destino[i].numeroSerie, f.filas[destino[i].gateway], destino[i].zona))
  }

  /** The rows of a destination replaced by what their turns leave. */
  function Escritas(filas: map<nat, Fila>, destino: seq<Destino>, ts: seq<Turno>): map<nat, Fila>
    requires |ts| == |destino| && SinFallas(ts)
  {
    if destino == [] then filas
    else
      var n := |destino| - 1;
      Escritas(filas, destino[..n], ts[..n])[destino[n].gateway := ts[n].fila]
  }

  predicate SeDespliega(f: Fleet, s: Suceso)
    requires Sensato(f, s) && s.Despliega?
  {
    Procede(s.esAdmin, f.releases, s.id, Elegidos(f, s.destino), s.enseguida, s.cfg, s.ahora)
  }

  function TurnosDe(f: Fleet, s: Suceso): seq<Turno>
    requires Sensato(f, s) && s.Despliega? && SeDespliega(f, s)
  {
    Turnos(Elegidos(f, s.destino), Pedido(s.id, f.releases[s.id], s.enseguida, s.cfg.value, s.ahora))
  }

  /** A gateway as it is created: nothing pending, never seen, no credential. */
  function Nueva(version: Option<string>): Fila {
    Fila(None, SinPendiente, 0, None, version, None, None, None, None, None)
  }

  function PasoFlota(f: Fleet, s: Suceso): Fleet
    requires Sensato(f, s)
  {
    match s
    case Crea(g, version) => f.(filas := f.filas[g := Nueva(version)])
    case Publica(id, release) => f.(releases := Paso(Nodo(f.releases, Nueva(None)), Publicar(id, release)).releases)
    case Retira(id, ahora) => f.(releases := Paso(Nodo(f.releases, Nueva(None)), Retirar(id, ahora)).releases)
    case Despliega(_, _, destino, _, _, _) =>
      if SeDespliega(f, s) then f.(filas := Escritas(f.filas, destino, TurnosDe(f, s))) else f
    case DeUno(g, e) => f.(filas := f.filas[g := Paso(Nodo(f.releases, f.filas[g]), e).fila])
  }

  ghost predicate CorridaFlota(tr: seq<Fleet>, ss: seq<Suceso>) {
    && |tr| == |ss| + 1
    && forall i {:trigger ss[i]} :: 0 <= i < |ss| ==> Sensato(tr[i], ss[i]) && tr[i + 1] == PasoFlota(tr[i], ss[i])
  }

  // --- what one gateway sees ------------------------------------------------

  function Vista(f: Fleet, g: nat): Nodo
    requires g in f.filas
  {
    Nodo(f.releases, f.filas[g])
  }

  /** A rollout that does not get as far as this gateway. */
  const SIN_EFECTO := Desplegar(0, true, Err(Interno), 0, None)

  /** The place of a gateway in a destination, if it is there. */
  function Lugar(destino: seq<Destino>, g: nat): (r: Option<nat>)
    ensures r.Some? ==> r.value < |destino| && destino[r.value].gateway == g
    ensures r.None? ==> forall i :: 0 <= i < |destino| ==> destino[i].gateway != g
  {
    if destino == [] then None
    else if destino[|destino| - 1].gateway == g then Some(|destino| - 1)
    else Lugar(destino[..|destino| - 1], g)
  }

  /** The event of `Corridas` that gateway `g` sees. A rollout that is undone is none of its business. */
  function EventoDe(f: Fleet, s: Suceso, g: nat): Evento
    requires Sensato(f, s)
  {
    match s
    case Crea(_, _) => SIN_EFECTO
    case Publica(id, release) => Publicar(id, release)
    case Retira(id, ahora) => Retirar(id, ahora)
    case Despliega(_, id, destino, enseguida, cfg, ahora) =>
      var k := Lugar(destino, g);
      if SeDespliega(f, s) && k.Some? then Desplegar(id, enseguida, cfg, ahora, destino[k.value].zona) else SIN_EFECTO
    case DeUno(k, e) => if k == g then e else SIN_EFECTO
  }

  lemma {:induction false} EscritasEn(filas: map<nat, Fila>, destino: seq<Destino>, ts: seq<Turno>, g: nat)
    requires |ts| == |destino| && SinFallas(ts)
    requires forall i, j :: 0 <= i < j < |destino| ==> destino[i].gateway != destino[j].gateway
    requires forall i :: 0 <= i < |destino| ==> destino[i].gateway in filas
    ensures Escritas(filas, destino, ts).Keys == filas.Keys
    ensures g in filas ==>
      Escritas(filas, destino, ts)[g] == match Lugar(destino, g) case Some(k) => ts[k].fila case None => filas[g]
  {
    if destino != [] {
      var n := |destino| - 1;
      EscritasEn(filas, destino[..n], ts[..n], g);
    }
  }

  /** A rollout, seen from one gateway, is its turn when nobody fails, and nothing otherwise; it is
      an accepted one exactly when the gateway is among the scheduled. */
  lemma DespliegueVisto(f: Fleet, s: Suceso, g: nat)
    requires Sensato(f, s) && s.Despliega? && g in f.filas
    ensures g in PasoFlota(f, s).filas && Vista(PasoFlota(f, s), g) == Paso(Vista(f, g), EventoDe(f, s, g))
    ensures Acepta(Vista(f, g), EventoDe(f, s, g)) <==>
      SeDespliega(f, s) && Lugar(s.destino, g).Some? && TurnosDe(f, s)[Lugar(s.destino, g).value].suerte.Pasa?
  {
    if SeDespliega(f, s) {
      var ts := TurnosDe(f, s);
      EscritasEn(f.filas, s.destino, ts, g);
      var k := Lugar(s.destino, g);
      if k.Some? {
        TurnoVisto(f, s, g, k.value);
      }
    }
  }

  lemma TurnoVisto(f: Fleet, s: Suceso, g: nat, k: nat)
    requires Sensato(f, s) && s.Despliega? && SeDespliega(f, s) && g in f.filas
    requires k < |s.destino| && s.destino[k].gateway == g
    ensures var e := Desplegar(s.id, s.enseguida, s.cfg, s.ahora, s.destino[k].zona);
      && Paso(Vista(f, g), e) == Nodo(f.releases, TurnosDe(f, s)[k].fila)
      && (Acepta(Vista(f, g), e) <==> TurnosDe(f, s)[k].suerte.Pasa?)
  {
    var e := Desplegar(s.id, s.enseguida, s.cfg, s.ahora, s.destino[k].zona);
    DesplegarEsElTurno(Vista(f, g), e, g, s.destino[k].numeroSerie);
    assert TurnosDe(f, s)[k] == TurnoDe(Elegidos(f, s.destino)[k], Pedido(s.id, f.releases[s.id], s.enseguida, s.cfg.value, s.ahora));
  }

  lemma PasoVisto(f: Fleet, s: Suceso, g: nat)
    requires Sensato(f, s) && g in f.filas
    ensures g in PasoFlota(f, s).filas && Vista(PasoFlota(f, s), g) == Paso(Vista(f, g), EventoDe(f, s, g))
  {
    match s
    case Despliega(_, _, _, _, _, _) => DespliegueVisto(f, s, g);
    case _ =>
  }

  lemma UnPasoVisto(tr: seq<Fleet>, ss: seq<Suceso>, g: nat, i: nat)
    requires CorridaFlota(tr, ss) && i < |ss| && g in tr[i].filas
    ensures Sensato(tr[i], ss[i]) && g in tr[i + 1].filas
    ensures Vista(tr[i + 1], g) == Paso(Vista(tr[i], g), EventoDe(tr[i], ss[i], g))
  {
    assert tr[i + 1] == PasoFlota(tr[i], ss[i]);
    PasoVisto(tr[i], ss[i], g);
  }

  lemma SeQueda(tr: seq<Fleet>, ss: seq<Suceso>, g: nat, i: nat)
    requires CorridaFlota(tr, ss) && i < |ss| && g in tr[i].filas
    ensures g in tr[i + 1].filas
  {
    UnPasoVisto(tr, ss, g, i);
  }

  lemma {:induction false} SigueEnLaFlota(tr: seq<Fleet>, ss: seq<Suceso>, g: nat, desde: nat, i: nat)
    requires CorridaFlota(tr, ss) && desde <= i < |tr| && g in tr[desde].filas
    ensures g in tr[i].filas
  {
    if i > desde {
      SigueEnLaFlota(tr, ss, g, desde, i - 1);
      SeQueda(tr, ss, g, i - 1);
    }
  }

  /** Seen from any one of its gateways, a run of the fleet is, from the moment the gateway is there,
      a run of that gateway: everything `Corridas` proves of runs holds of each gateway of a fleet,
      also when a rollout is undone because the zone of another site is unknown. */
  lemma LaVistaEsCorrida(tr: seq<Fleet>, ss: seq<Suceso>, g: nat, desde: nat) returns (ns: seq<Nodo>, es: seq<Evento>)
    requires CorridaFlota(tr, ss) && desde < |tr| && g in tr[desde].filas
    ensures |ns| == |tr| - desde && |es| == |ss| - desde && Corrida(ns, es)
    ensures forall i :: 0 <= i < |ns| ==> g in tr[desde + i].filas && ns[i] == Vista(tr[desde + i], g)
    ensures forall i :: 0 <= i < |es| ==>
      Sensato(tr[desde + i], ss[desde + i]) && es[i] == EventoDe(tr[desde + i], ss[desde + i], g)
  {
    forall i | desde <= i < |tr|
      ensures g in tr[i].filas
      ensures i < |ss| ==>
        Sensato(tr[i], ss[i]) && g in tr[i + 1].filas && Vista(tr[i + 1], g) == Paso(Vista(tr[i], g), EventoDe(tr[i], ss[i], g))
    {
      SigueEnLaFlota(tr, ss, g, desde, i);
      if i < |ss| { UnPasoVisto(tr, ss, g, i); }
    }
    ns := seq(|tr| - desde, i requires 0 <= i < |tr| - desde => Vista(tr[desde + i], g));
    es := seq(|ss| - desde, i requires 0 <= i < |ss| - desde => EventoDe(tr[desde + i], ss[desde + i], g));
    forall i | 0 <= i < |es|
      ensures ns[i + 1] == Paso(ns[i], es[i])
    {
      assert tr[desde + i + 1] == tr[desde + (i + 1)];
    }
  }

  // --- from the first gateway on --------------------------------------------

  /** A catalogue that can be read, and no gateway with anything pending. */
  ghost predicate FlotaInicial(f: Fleet) {
    CatalogoLegible(f.releases) && forall g :: g in f.filas ==> Inicial(Vista(f, g))
  }

  lemma PasoConservaLegible(f: Fleet, s: Suceso)
    requires Sensato(f, s) && CatalogoLegible(f.releases)
    ensures CatalogoLegible(PasoFlota(f, s).releases)
  {
    match s
    case Publica(id, release) => PasoConservaCatalogo(Nodo(f.releases, Nueva(None)), Publicar(id, release));
    case Retira(id, ahora) => PasoConservaCatalogo(Nodo(f.releases, Nueva(None)), Retirar(id, ahora));
    case _ =>
  }

  lemma {:induction false} SiempreLegible(tr: seq<Fleet>, ss: seq<Suceso>, i: nat)
    requires CorridaFlota(tr, ss) && FlotaInicial(tr[0]) && i < |tr|
    ensures CatalogoLegible(tr[i].releases)
  {
    if i > 0 {
      SiempreLegible(tr, ss, i - 1);
      assert tr[i] == PasoFlota(tr[i - 1], ss[i - 1]);
      PasoConservaLegible(tr[i - 1], ss[i - 1]);
    }
  }

  lemma LlegaCreada(f: Fleet, s: Suceso, g: nat)
    requires Sensato(f, s) && g !in f.filas && g in PasoFlota(f, s).filas
    ensures s.Crea? && PasoFlota(f, s).filas[g] == Nueva(s.version)
  {
    if s.Despliega? && SeDespliega(f, s) {
      EscritasEn(f.filas, s.destino, TurnosDe(f, s), g);
    }
  }

  /** When a gateway came into the fleet: with nothing pending, in a catalogue that can be read. */
  lemma {:induction false} Nacimiento(tr: seq<Fleet>, ss: seq<Suceso>, g: nat, i: nat) returns (k: nat)
    requires CorridaFlota(tr, ss) && FlotaInicial(tr[0]) && i < |tr| && g in tr[i].filas
    ensures k <= i && g in tr[k].filas && Inicial(Vista(tr[k], g))
  {
    k := i;
    if i > 0 {
      assert tr[i] == PasoFlota(tr[i - 1], ss[i - 1]);
      if g in tr[i - 1].filas {
        k := Nacimiento(tr, ss, g, i - 1);
      } else {
        LlegaCreada(tr[i - 1], ss[i - 1], g);
        SiempreLegible(tr, ss, i);
      }
    }
  }

  lemma VistaEn(tr: seq<Fleet>, ss: seq<Suceso>, g: nat, k: nat, i: nat) returns (ns: seq<Nodo>, es: seq<Evento>)
    requires CorridaFlota(tr, ss) && k <= i < |tr| && g in tr[k].filas && g in tr[i].filas
    ensures Corrida(ns, es) && ns[0] == Vista(tr[k], g) && i - k < |ns| && ns[i - k] == Vista(tr[i], g)
  {
    ns, es := LaVistaEsCorrida(tr, ss, g, k);
    assert ns[0] == Vista(tr[k + 0], g) && ns[i - k] == Vista(tr[k + (i - k)], g);
  }

  /** The unwritten invariants, in every reachable state of a fleet, for every gateway it has by then. */
  lemma InvarianteDeLaFlota(tr: seq<Fleet>, ss: seq<Suceso>, g: nat, i: nat)
    requires CorridaFlota(tr, ss) && FlotaInicial(tr[0]) && i < |tr| && g in tr[i].filas
    ensures InvFila(tr[i].filas[g])
    ensures tr[i].filas[g].objetivo.Some? ==> tr[i].filas[g].objetivo.value in tr[i].releases
  {
    var k := Nacimiento(tr, ss, g, i);
    var ns, es := VistaEn(tr, ss, g, k, i);
    InvarianteEn(ns, es, i - k, Vista(tr[i], g));
  }

  lemma InvarianteEn(ns: seq<Nodo>, es: seq<Evento>, i: nat, n: Nodo)
    requires Corrida(ns, es) && Inicial(ns[0]) && i < |ns| && ns[i] == n
    ensures InvFila(n.fila) && ObjetivoExiste(n)
  {
    InvarianteSiempre(ns, es, i);
  }
}
