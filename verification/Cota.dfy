/** The bound on what one rollout can go through is exact: for any number of failures before the
    download, requests that a panel and a device can make reach it. */
module Cota {
  import opened Wrappers
  import opened Texto
  import opened Versiones
  import opened ConfigFlota
  import opened Ventana
  import opened Actualizacion
  import opened Traza
  import opened Corridas
  import Ajustes

  // --- runs that grow -------------------------------------------------------

  lemma {:induction false} CuentaPrefijo(fs: seq<Fila>, gs: seq<Fila>, i: nat, j: nat, p: (Estado, Estado) -> bool)
    requires i <= j < |fs| && fs <= gs
    ensures Cuenta(fs, i, j, p) == Cuenta(gs, i, j, p)
  {
    if i < j { CuentaPrefijo(fs, gs, i, j - 1, p); }
  }

  lemma CuentaAlExtender(tr: seq<Nodo>, m: Nodo, i: nat, p: (Estado, Estado) -> bool)
    requires i < |tr|
    ensures Cuenta(Filas(tr + [m]), i, |tr|, p)
         == Cuenta(Filas(tr), i, |tr| - 1, p) + if p(tr[|tr| - 1].fila.estado, m.fila.estado) then 1 else 0
  {
    assert Filas(tr + [m]) == Filas(tr) + [m.fila];
    CuentaPrefijo(Filas(tr), Filas(tr + [m]), i, |tr| - 1, p);
  }

  lemma CorridaMas(tr: seq<Nodo>, es: seq<Evento>, e: Evento, m: Nodo)
    requires Corrida(tr, es) && m == Paso(tr[|es|], e)
    ensures Corrida(tr + [m], es + [e])
  {
    var tr', es' := tr + [m], es + [e];
    forall i | 0 <= i < |es'|
      ensures tr'[i + 1] == Paso(tr'[i], es'[i])
    {
      if i < |es| {
        assert es'[i] == es[i] && tr'[i] == tr[i] && tr'[i + 1] == tr[i + 1];
      }
    }
  }

  /** The settings a request goes by are what some table of settings says. */
  ghost predicate Posible(e: Evento) {
    e.Desplegar? || e.Consultar? || e.Latir? ==> exists filas: Ajustes.Tabla :: Config(filas) == e.cfg
  }

  /** A run from `n` that opens with the accepted rollout `d`, asks for no other, and ends in `m`.
      From the rollout on the state changes `k` times, `t` of them a failure before the download. */
  ghost predicate Despliegue(tr: seq<Nodo>, es: seq<Evento>, n: Nodo, d: Evento, m: Nodo, k: nat, t: nat) {
    && Corrida(tr, es) && es != [] && tr[0] == n && es[0] == d && Acepta(n, d) && tr[|es|] == m
    && (forall i :: 1 <= i < |es| ==> !es[i].Desplegar?) && (forall i :: 0 <= i < |es| ==> Posible(es[i]))
    && Cuenta(Filas(tr), 1, |es|, CAMBIO) == k && Cuenta(Filas(tr), 1, |es|, FALLO_TEMPRANO) == t
  }

  /** Some such run ends in `m`. */
  ghost predicate Llega(n: Nodo, d: Evento, m: Nodo, k: nat, t: nat) {
    exists tr: seq<Nodo>, es: seq<Evento> :: Despliegue(tr, es, n, d, m, k, t)
  }

  lemma LlegaAlPrincipio(n: Nodo, d: Evento)
    requires Acepta(n, d) && Posible(d)
    ensures Llega(n, d, Paso(n, d), 0, 0)
  {
    assert Despliegue([n, Paso(n, d)], [d], n, d, Paso(n, d), 0, 0);
  }

  function Temprano(a: Estado, b: Estado): nat { if a.Programada? && b.Fallida? then 1 else 0 }

  /** One request that is not a rollout changes the state. */
  ghost predicate Cambia(m: Nodo, fin: Nodo) {
    fin.fila.estado != m.fila.estado && exists e: Evento :: !e.Desplegar? && Posible(e) && fin == Paso(m, e)
  }

  lemma LlegaMas(n: Nodo, d: Evento, m: Nodo, k: nat, t: nat, fin: Nodo, j: nat, u: nat)
    requires Llega(n, d, m, k, t) && Cambia(m, fin)
    requires j == k + 1 && u == t + Temprano(m.fila.estado, fin.fila.estado)
    ensures Llega(n, d, fin, j, u)
  {
    var e: Evento :| !e.Desplegar? && Posible(e) && fin == Paso(m, e);
    var tr: seq<Nodo>, es: seq<Evento> :| Despliegue(tr, es, n, d, m, k, t);
    DespliegueMas(tr, es, n, d, m, k, t, e, fin);
  }

  lemma DespliegueMas(tr: seq<Nodo>, es: seq<Evento>, n: Nodo, d: Evento, m: Nodo, k: nat, t: nat, e: Evento, fin: Nodo)
    requires Despliegue(tr, es, n, d, m, k, t) && !e.Desplegar? && Posible(e)
    requires fin == Paso(m, e) && fin.fila.estado != m.fila.estado
    ensures Despliegue(tr + [fin], es + [e], n, d, fin, k + 1, t + Temprano(m.fila.estado, fin.fila.estado))
  {
    CorridaMas(tr, es, e, fin);
    CuentaAlExtender(tr, fin, 1, CAMBIO);
    CuentaAlExtender(tr, fin, 1, FALLO_TEMPRANO);
  }

  // --- what the device does -------------------------------------------------

  /** The gateway as its rollout finds and leaves it: the catalogue, the release, the version it
      runs, the zone of its site, the settings it asks under, and the first instant of the concession
      written, when all of it happens. */
  datatype Guion = Guion(releases: Catalogo, id: ReleaseId, corre: Option<string>, zona: Option<Zona>, config: VentanaConfig, ahora: int)

  const BASE := "https://releases"

  /** The rollout's own settings with updates on, which takes a base address if it had none. */
  function Encendida(c: VentanaConfig): VentanaConfig {
    c.(activo := true, baseUrl := if c.baseUrl == "" then BASE else c.baseUrl)
  }

  function GuionDe(n: Nodo, d: Evento): Guion
    requires Acepta(n, d)
  {
    Guion(n.releases, d.id, n.fila.version, d.zona, Encendida(d.cfg.value), Paso(n, d).fila.aplicarDesde.value)
  }

  lemma EncendidaEsPosible(c: VentanaConfig)
    requires exists filas: Ajustes.Tabla :: Config(filas) == Ok(c)
    ensures exists filas: Ajustes.Tabla :: Config(filas) == Ok(Encendida(c))
  {
    ConfigPosibleSii(c);
    StripRecorta(BASE);
    ConfigPosibleSii(Encendida(c));
  }

  /** The question it asks; its settings are what some table says. */
  function Pregunta(g: Guion): Evento { Consultar(Ok(g.config), g.ahora, g.zona) }

  /** The release is offered, it can be read, it is not the one running, and the device may ask. */
  ghost predicate Pendiente(g: Guion) {
    && g.config.activo && Posible(Pregunta(g)) && g.id in g.releases && g.releases[g.id].Disponible()
    && ParseVersion(g.releases[g.id].version).Ok? && !MismaVersion(g.corre, Some(g.releases[g.id].version))
  }

  ghost predicate EnCamino(m: Nodo, g: Guion) {
    && m.releases == g.releases && m.fila.objetivo == Some(g.id)
    && m.fila.version == g.corre && m.fila.aplicarDesde == Some(g.ahora)
  }

  /** The row after an accepted ack that carries no version of its own. */
  function TrasAcuse(m: Nodo, g: Guion, e: Estado): Nodo
    requires !e.Aplicada?
  {
    m.(fila := Anotada(m.fila, Ok(""), e, None, g.ahora).value)
  }

  lemma AcuseAnota(m: Nodo, g: Guion, e: Estado)
    requires Pendiente(g) && EnCamino(m, g) && Reportable(e) && !e.Aplicada? && TransicionValida(m.fila.estado, e)
    requires m.fila.estado != e
    ensures Cambia(m, TrasAcuse(m, g, e))
  {
    var version := g.releases[g.id].version;
    AcuseAnotado(m.fila, m.releases, e, version, None, g.ahora);
    PasoAcusar(m, e, version, None, g.ahora);
    CambiaPor(m, Acusar(e, version, None, g.ahora), TrasAcuse(m, g, e));
  }

  lemma CambiaPor(m: Nodo, e: Evento, fin: Nodo)
    requires !e.Desplegar? && Posible(e) && fin == Paso(m, e) && fin.fila.estado != m.fila.estado
    ensures Cambia(m, fin)
  {}

  lemma ConsultaArma(m: Nodo, g: Guion)
    requires Pendiente(g) && EnCamino(m, g) && m.fila.estado.Fallida? && PuedeReintentar(m.fila.intentos)
    ensures Cambia(m, m.(fila := m.fila.(estado := Programada)))
  {
    ConsultaOfrece(m.fila, m.releases, g.config, g.ahora, g.zona);
    PasoConsultar(m, Ok(g.config), g.ahora, g.zona);
    CambiaPor(m, Pregunta(g), m.(fila := Rearmada(m.fila)));
  }

  // --- which sequences of states there are ----------------------------------

  /** The state reached, the attempts written, the changes made and the early failures among them. */
  datatype Marca = Marca(estado: Estado, intentos: nat, cambios: nat, tempranos: nat)

  /** The next state an ack short of success, or a question, can bring. */
  predicate Cabe(a: Marca, e: Estado) {
    && e != a.estado
    && if e.Programada? then a.estado.Fallida? && PuedeReintentar(a.intentos)
       else Reportable(e) && !e.Aplicada? && TransicionValida(a.estado, e)
  }

  function Suma(a: Marca, e: Estado): Marca {
    Marca(e, if e.Descargando? then a.intentos + 1 else a.intentos, a.cambios + 1, a.tempranos + Temprano(a.estado, e))
  }

  /** A run of the rollout ends on its way, at that mark. */
  ghost predicate Alcanza(n: Nodo, d: Evento, g: Guion, a: Marca) {
    exists m: Nodo ::
      Llega(n, d, m, a.cambios, a.tempranos) && EnCamino(m, g) && m.fila.estado == a.estado && m.fila.intentos == a.intentos
  }

  lemma LlegaPorAcuse(n: Nodo, d: Evento, m: Nodo, a: Marca, g: Guion, e: Estado, b: Marca) returns (fin: Nodo)
    requires Llega(n, d, m, a.cambios, a.tempranos) && Pendiente(g) && EnCamino(m, g)
    requires m.fila.estado == a.estado && m.fila.intentos == a.intentos
    requires Cabe(a, e) && !e.Programada? && b == Suma(a, e)
    ensures Llega(n, d, fin, b.cambios, b.tempranos) && EnCamino(fin, g)
    ensures fin.fila.estado == b.estado && fin.fila.intentos == b.intentos
  {
    fin := TrasAcuse(m, g, e);
    AcuseAnota(m, g, e);
    LlegaMas(n, d, m, a.cambios, a.tempranos, fin, b.cambios, b.tempranos);
  }

  lemma LlegaPorConsulta(n: Nodo, d: Evento, m: Nodo, a: Marca, g: Guion, b: Marca) returns (fin: Nodo)
    requires Llega(n, d, m, a.cambios, a.tempranos) && Pendiente(g) && EnCamino(m, g)
    requires m.fila.estado == a.estado && m.fila.intentos == a.intentos
    requires Cabe(a, Programada) && b == Suma(a, Programada)
    ensures Llega(n, d, fin, b.cambios, b.tempranos) && EnCamino(fin, g)
    ensures fin.fila.estado == b.estado && fin.fila.intentos == b.intentos
  {
    fin := m.(fila := m.fila.(estado := Programada));
    ConsultaArma(m, g);
    LlegaMas(n, d, m, a.cambios, a.tempranos, fin, b.cambios, b.tempranos);
  }

  lemma AlcanzaMas(n: Nodo, d: Evento, g: Guion, a: Marca, e: Estado)
    requires Pendiente(g) && Alcanza(n, d, g, a) && Cabe(a, e)
    ensures Alcanza(n, d, g, Suma(a, e))
  {
    var m: Nodo :|
      Llega(n, d, m, a.cambios, a.tempranos) && EnCamino(m, g) && m.fila.estado == a.estado && m.fila.intentos == a.intentos;
    var fin;
    if e.Programada? {
      fin := LlegaPorConsulta(n, d, m, a, g, Suma(a, e));
    } else {
      fin := LlegaPorAcuse(n, d, m, a, g, e, Suma(a, e));
    }
  }

  /** There is a rollout to speak of: by an empty table of settings, on a gateway that never reported
      a version and has a credential. */
  lemma HayDespliegue() returns (n: Nodo, d: Evento)
    ensures Inicial(n) && Acepta(n, d) && Posible(d)
  {
    var release := Release("1.0.0", "", None, "", None);
    n := Nodo(map[0 := release], Fila(None, SinPendiente, 0, None, None, None, None, None, None, Some("")));
    ConfigFallaSii(map[]);
    d := Desplegar(0, true, Config(map[]), 0, None);
    UnoCeroCeroSeLee();
  }

  lemma UnoCeroCeroSeLee()
    ensures ParseVersion("1.0.0").Ok?
  {
    var t := Unir("1", "0", "0");
    assert t == "1.0.0" && Digitos("1") && Digitos("0");
    StripRecorta(t);
    assert Coincide(Strip(t), "1", "0", "0");
    ParseVersionEsLaGramatica(t);
  }

  // --- the longest runs -----------------------------------------------------

  /** Marks that every step that fits leads to another of. */
  ghost predicate Cerrado(p: Marca -> bool) {
    forall a: Marca, e: Estado :: p(a) && Cabe(a, e) ==> p(Suma(a, e))
  }

  /** Failing before the download, as often as wanted: two changes each time, and no attempt. */
  lemma {:induction false} FallosTempranos(p: Marca -> bool, veces: nat)
    requires Cerrado(p) && p(Marca(Programada, 0, 0, 0))
    ensures p(Marca(Programada, 0, 2 * veces, veces))
  {
    if veces > 0 {
      FallosTempranos(p, veces - 1);
      assert Cabe(Marca(Programada, 0, 2 * veces - 2, veces - 1), Fallida);
      assert Cabe(Marca(Fallida, 0, 2 * veces - 1, veces), Programada);
    }
  }

  /** One attempt that downloads, restarts and fails: three changes. */
  lemma IntentoFallido(p: Marca -> bool, intentos: nat, k: nat, t: nat)
    requires Cerrado(p) && p(Marca(Programada, intentos, k, t))
    ensures p(Marca(Fallida, intentos + 1, k + 3, t))
  {
    assert Cabe(Marca(Programada, intentos, k, t), Descargando);
    assert Cabe(Marca(Descargando, intentos + 1, k + 1, t), Aplicando);
    assert Cabe(Marca(Aplicando, intentos + 1, k + 2, t), Fallida);
  }

  lemma TresIntentos(p: Marca -> bool, k: nat, t: nat)
    requires Cerrado(p) && p(Marca(Programada, 0, k, t))
    ensures p(Marca(Fallida, MAX_INTENTOS, k + 11, t))
  {
    IntentoFallido(p, 0, k, t);
    assert Cabe(Marca(Fallida, 1, k + 3, t), Programada);
    IntentoFallido(p, 1, k + 4, t);
    assert Cabe(Marca(Fallida, 2, k + 7, t), Programada);
    IntentoFallido(p, 2, k + 8, t);
  }

  lemma Agotamiento(p: Marca -> bool, t: nat)
    requires Cerrado(p) && p(Marca(Programada, 0, 0, 0))
    ensures p(Marca(Fallida, MAX_INTENTOS, 11 + 2 * t, t))
  {
    FallosTempranos(p, t);
    TresIntentos(p, 2 * t, t);
  }

  /** After any accepted rollout on a gateway with nothing pending, whatever mark a run reaches,
      every step that fits leads a run one further. */
  lemma TodoPasoSeDa(n: Nodo, d: Evento) returns (p: Marca -> bool)
    requires Inicial(n) && Acepta(n, d) && Posible(d)
    ensures forall a :: p(a) <==> Alcanza(n, d, GuionDe(n, d), a)
    ensures Cerrado(p) && p(Marca(Programada, 0, 0, 0))
  {
    var g := GuionDe(n, d);
    p := a => Alcanza(n, d, g, a);
    LlegaAlPrincipio(n, d);
    EncendidaEsPosible(d.cfg.value);
    assert EnCamino(Paso(n, d), g);
    forall a: Marca, e: Estado | p(a) && Cabe(a, e)
      ensures p(Suma(a, e))
    {
      AlcanzaMas(n, d, g, a, e);
    }
  }

  lemma AlCancelar(n: Nodo, d: Evento, g: Guion, a: Marca, k: nat)
    requires Alcanza(n, d, g, a) && a.estado.Fallida? && k == a.cambios + 1
    ensures exists m: Nodo :: Llega(n, d, m, a.cambios, a.tempranos) && m.fila.objetivo.Some? && m.fila.intentos == a.intentos
    ensures exists m: Nodo :: Llega(n, d, m, k, a.tempranos) && m.fila.objetivo.None?
  {
    var m: Nodo :|
      Llega(n, d, m, a.cambios, a.tempranos) && EnCamino(m, g) && m.fila.estado == a.estado && m.fila.intentos == a.intentos;
    var fin := m.(fila := Cancelada(m.fila).0);
    assert fin == Paso(m, Cancelar) && Posible(Cancelar);
    LlegaMas(n, d, m, a.cambios, a.tempranos, fin, k, a.tempranos);
    assert Llega(n, d, fin, k, a.tempranos) && fin.fila.objetivo.None?;
  }

  /** The bounds of `Corridas.RolloutAcotado` are exact. After any accepted rollout on a gateway
      with nothing pending, and whatever the number of failures before the download, three attempts
      that fail after it spend eleven changes more than two for each of those; cancelling then makes
      the twelfth. */
  lemma OnceSeAlcanzan(n: Nodo, d: Evento, tempranos: nat)
    requires Inicial(n) && Acepta(n, d) && Posible(d)
    ensures exists m: Nodo ::
      Llega(n, d, m, 11 + 2 * tempranos, tempranos) && m.fila.objetivo.Some? && m.fila.intentos == MAX_INTENTOS
    ensures exists m: Nodo :: Llega(n, d, m, 12 + 2 * tempranos, tempranos) && m.fila.objetivo.None?
  {
    var p := TodoPasoSeDa(n, d);
    Agotamiento(p, tempranos);
    AlCancelar(n, d, GuionDe(n, d), Marca(Fallida, MAX_INTENTOS, 11 + 2 * tempranos, tempranos), 12 + 2 * tempranos);
  }
}
