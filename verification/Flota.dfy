/** Counting a client's installation in the database and walking it as a tree give the same
    numbers (app/repositories/hierarchy.py, app/services/fleet.py, app/domain/gateway_status.py). */
module Flota {
  import opened Wrappers

  /** Five minutes, in microseconds. */
  const OFFLINE_AFTER: int := 5 * 60_000_000

  datatype Contacto = Contacto(sitio: nat, ultimaConexion: Option<int>)

  /** The tables: each row by its primary key, with the key of its parent. */
  datatype Base = Base(clientes: set<nat>, sitios: map<nat, nat>, gateways: map<nat, Contacto>,
                       equipos: map<nat, nat>, variables: map<nat, nat>)

  /** The foreign keys hold. */
  ghost predicate Integra(db: Base) {
    && (forall s :: s in db.sitios ==> db.sitios[s] in db.clientes)
    && (forall g :: g in db.gateways ==> db.gateways[g].sitio in db.sitios)
    && (forall e :: e in db.equipos ==> db.equipos[e] in db.gateways)
    && (forall v :: v in db.variables ==> db.variables[v] in db.equipos)
  }

  // --- status ---------------------------------------------------------------

  datatype GatewayStatus = Online | Offline

  function DeriveStatus(ultimaConexion: Option<int>, ahora: int): GatewayStatus {
    if ultimaConexion.None? then Offline
    else if ahora - ultimaConexion.value <= OFFLINE_AFTER then Online else Offline
  }

  /** `_sin_conexion`, the filter the database evaluates. */
  predicate SinConexion(ultimaConexion: Option<int>, corte: int) {
    ultimaConexion.None? || ultimaConexion.value < corte
  }

  predicate EnLinea(ultimaConexion: Option<int>, corte: int) {
    ultimaConexion.Some? && ultimaConexion.value >= corte
  }

  // --- the scalar subqueries ------------------------------------------------

  function Sedes(db: Base, c: nat): nat { |set s | s in db.sitios && db.sitios[s] == c| }

  /** The pairs that joining gateways with the sites of one client returns. */
  function GatewaySite(db: Base, c: nat): set<(nat, nat)> {
    set g, s | g in db.gateways && s in db.sitios && db.gateways[g].sitio == s && db.sitios[s] == c :: (g, s)
  }

  function EquipmentGatewaySite(db: Base, c: nat): set<(nat, nat, nat)> {
    set e, p | e in db.equipos && p in GatewaySite(db, c) && db.equipos[e] == p.0 :: (e, p.0, p.1)
  }

  function VariableEquipmentGatewaySite(db: Base, c: nat): set<(nat, nat, nat, nat)> {
    set v, p | v in db.variables && p in EquipmentGatewaySite(db, c) && db.variables[v] == p.0 :: (v, p.0, p.1, p.2)
  }

  datatype ClientSummary = ClientSummary(sedes: nat, gateways: nat, enLinea: nat, equipos: nat, variables: nat)

  function Resumen(db: Base, c: nat, corte: int): ClientSummary {
    ClientSummary(
      Sedes(db, c),
      |GatewaySite(db, c)|,
      |set p | p in GatewaySite(db, c) && EnLinea(db.gateways[p.0].ultimaConexion, corte)|,
      |EquipmentGatewaySite(db, c)|,
      |VariableEquipmentGatewaySite(db, c)|)
  }

  /** `list_offline_gateways` for one client. */
  function Caidos(db: Base, c: nat, corte: int): set<(nat, nat)> {
    set p | p in GatewaySite(db, c) && SinConexion(db.gateways[p.0].ultimaConexion, corte)
  }

  // --- the tree -------------------------------------------------------------

  datatype FleetLevel = Sitios | Gateways | Equipos | Variables

  function Orden(l: FleetLevel): nat {
    match l
    case Sitios => 0
    case Gateways => 1
    case Equipos => 2
    case Variables => 3
  }

  predicate Reaches(level: FleetLevel, wanted: FleetLevel) { Orden(level) >= Orden(wanted) }

  datatype EquipmentFleet = EquipmentFleet(id: nat, variables: Option<seq<nat>>)
  datatype GatewayFleet = GatewayFleet(id: nat, equipment: Option<seq<EquipmentFleet>>)
  datatype SiteFleet = SiteFleet(id: nat, gateways: Option<seq<GatewayFleet>>)
  datatype ClientFleet = ClientFleet(id: nat, sites: seq<SiteFleet>)

  /** How a relationship lists its rows: some order, each row once. */
  datatype Cargador = Cargador(lista: set<nat> -> seq<nat>)

  ghost predicate Fiel(k: Cargador) {
    forall s: set<nat> :: Distintos(k.lista(s)) && forall x :: x in k.lista(s) <==> x in s
  }

  predicate Distintos(xs: seq<nat>) { forall i, j :: 0 <= i < j < |xs| ==> xs[i] != xs[j] }

  /** The children of a row. */
  function Hijos(m: map<nat, nat>, padre: nat): set<nat> { set h | h in m && m[h] == padre }

  function SitioDe(db: Base): map<nat, nat> { map g | g in db.gateways :: db.gateways[g].sitio }

  function AsEquipment(db: Base, e: nat, level: FleetLevel, k: Cargador): EquipmentFleet {
    EquipmentFleet(e, if Reaches(level, Variables) then Some(k.lista(Hijos(db.variables, e))) else None)
  }

  function AsGateway(db: Base, g: nat, level: FleetLevel, k: Cargador): GatewayFleet {
    var es := k.lista(Hijos(db.equipos, g));
    GatewayFleet(g, if Reaches(level, Equipos) then Some(seq(|es|, i requires 0 <= i < |es| => AsEquipment(db, es[i], level, k))) else None)
  }

  function AsSite(db: Base, s: nat, level: FleetLevel, k: Cargador): SiteFleet {
    var gs := k.lista(Hijos(SitioDe(db), s));
    SiteFleet(s, if Reaches(level, Gateways) then Some(seq(|gs|, i requires 0 <= i < |gs| => AsGateway(db, gs[i], level, k))) else None)
  }

  function AsClient(db: Base, c: nat, level: FleetLevel, k: Cargador): ClientFleet {
    var ss := k.lista(Hijos(db.sitios, c));
    ClientFleet(c, seq(|ss|, i requires 0 <= i < |ss| => AsSite(db, ss[i], level, k)))
  }

  // --- walking it -----------------------------------------------------------

  function VariablesDeEquipo(e: EquipmentFleet): nat { if e.variables.None? then 0 else |e.variables.value| }

  function SumaVariables(es: seq<EquipmentFleet>): nat {
    if es == [] then 0 else SumaVariables(es[..|es| - 1]) + VariablesDeEquipo(es[|es| - 1])
  }

  function EquiposDe(g: GatewayFleet): seq<EquipmentFleet> { if g.equipment.None? then [] else g.equipment.value }

  function SumaEquipos(gs: seq<GatewayFleet>): nat {
    if gs == [] then 0 else SumaEquipos(gs[..|gs| - 1]) + |EquiposDe(gs[|gs| - 1])|
  }

  function SumaVariablesDe(gs: seq<GatewayFleet>): nat {
    if gs == [] then 0 else SumaVariablesDe(gs[..|gs| - 1]) + SumaVariables(EquiposDe(gs[|gs| - 1]))
  }

  function GatewaysDe(s: SiteFleet): seq<GatewayFleet> { if s.gateways.None? then [] else s.gateways.value }

  /** Gateways, devices and variables below a list of sites. */
  function TotalGateways(ss: seq<SiteFleet>): nat {
    if ss == [] then 0 else TotalGateways(ss[..|ss| - 1]) + |GatewaysDe(ss[|ss| - 1])|
  }

  function TotalEquipos(ss: seq<SiteFleet>): nat {
    if ss == [] then 0 else TotalEquipos(ss[..|ss| - 1]) + SumaEquipos(GatewaysDe(ss[|ss| - 1]))
  }

  function TotalVariables(ss: seq<SiteFleet>): nat {
    if ss == [] then 0 else TotalVariables(ss[..|ss| - 1]) + SumaVariablesDe(GatewaysDe(ss[|ss| - 1]))
  }

  // --- sums over children ---------------------------------------------------

  /** The rows whose parent is in a list. */
  function Descendientes(m: map<nat, nat>, padres: seq<nat>): set<nat> { set h | h in m && m[h] in padres }

  lemma DescendientesDeUnoMas(m: map<nat, nat>, padres: seq<nat>)
    requires Distintos(padres) && padres != []
    ensures |Descendientes(m, padres)| == |Descendientes(m, padres[..|padres| - 1])| + |Hijos(m, padres[|padres| - 1])|
    ensures Distintos(padres[..|padres| - 1])
  {
    var n := |padres| - 1;
    var antes, ultimos := Descendientes(m, padres[..n]), Hijos(m, padres[n]);
    assert padres == padres[..n] + [padres[n]];
    assert padres[n] !in padres[..n];
    assert antes !! ultimos && Descendientes(m, padres) == antes + ultimos;
  }

  /** The children of every row of a list, added up. */
  function SumaHijos(m: map<nat, nat>, padres: seq<nat>): nat {
    if padres == [] then 0 else SumaHijos(m, padres[..|padres| - 1]) + |Hijos(m, padres[|padres| - 1])|
  }

  lemma {:induction false} SumaHijosCuenta(m: map<nat, nat>, padres: seq<nat>)
    requires Distintos(padres)
    ensures SumaHijos(m, padres) == |Descendientes(m, padres)|
  {
    if padres == [] {
      assert Descendientes(m, padres) == {};
    } else {
      DescendientesDeUnoMas(m, padres);
      SumaHijosCuenta(m, padres[..|padres| - 1]);
    }
  }

  lemma {:induction false} MismaCantidad(xs: seq<nat>, s: set<nat>)
    requires Distintos(xs) && forall x :: x in xs <==> x in s
    ensures |xs| == |s|
  {
    if xs == [] {
      assert s == {};
    } else {
      var n := |xs| - 1;
      assert xs == xs[..n] + [xs[n]];
      assert xs[n] !in xs[..n];
      MismaCantidad(xs[..n], s - {xs[n]});
    }
  }

  /** From each row of `m` to its grandparent. */
  function Componer(m: map<nat, nat>, p: map<nat, nat>): map<nat, nat> { map h | h in m && m[h] in p :: p[m[h]] }

  /** Walking the listed children of a row, their children add up to its grandchildren. */
  lemma NietosPorLista(k: Cargador, m: map<nat, nat>, p: map<nat, nat>, abuelo: nat)
    requires Fiel(k)
    ensures SumaHijos(m, k.lista(Hijos(p, abuelo))) == |Hijos(Componer(m, p), abuelo)|
  {
    var padres := k.lista(Hijos(p, abuelo));
    SumaHijosCuenta(m, padres);
    assert Descendientes(m, padres) == Hijos(Componer(m, p), abuelo);
  }

  lemma ListaDeHijos(k: Cargador, m: map<nat, nat>, padre: nat)
    requires Fiel(k)
    ensures |k.lista(Hijos(m, padre))| == |Hijos(m, padre)|
  {
    MismaCantidad(k.lista(Hijos(m, padre)), Hijos(m, padre));
  }

  function ComoEquipos(db: Base, es: seq<nat>, k: Cargador): seq<EquipmentFleet> {
    seq(|es|, i requires 0 <= i < |es| => AsEquipment(db, es[i], Variables, k))
  }

  function ComoGateways(db: Base, gs: seq<nat>, k: Cargador): seq<GatewayFleet> {
    seq(|gs|, i requires 0 <= i < |gs| => AsGateway(db, gs[i], Variables, k))
  }

  function ComoSitios(db: Base, ss: seq<nat>, k: Cargador): seq<SiteFleet> {
    seq(|ss|, i requires 0 <= i < |ss| => AsSite(db, ss[i], Variables, k))
  }

  lemma {:induction false} VariablesDeUnaLista(db: Base, es: seq<nat>, k: Cargador)
    requires Fiel(k)
    ensures SumaVariables(ComoEquipos(db, es, k)) == SumaHijos(db.variables, es)
  {
    if es != [] {
      var n := |es| - 1;
      VariablesDeUnaLista(db, es[..n], k);
      assert ComoEquipos(db, es, k)[..n] == ComoEquipos(db, es[..n], k);
      ListaDeHijos(k, db.variables, es[n]);
    }
  }

  function GatewayDeVariable(db: Base): map<nat, nat> { Componer(db.variables, db.equipos) }

  lemma DebajoDeUnGateway(db: Base, g: nat, k: Cargador)
    requires Fiel(k)
    ensures |EquiposDe(AsGateway(db, g, Variables, k))| == |Hijos(db.equipos, g)|
    ensures SumaVariables(EquiposDe(AsGateway(db, g, Variables, k))) == |Hijos(GatewayDeVariable(db), g)|
  {
    var es := k.lista(Hijos(db.equipos, g));
    ListaDeHijos(k, db.equipos, g);
    VariablesDeUnaLista(db, es, k);
    NietosPorLista(k, db.variables, db.equipos, g);
    assert EquiposDe(AsGateway(db, g, Variables, k)) == ComoEquipos(db, es, k);
  }

  lemma PrefijoDeGateways(db: Base, gs: seq<nat>, k: Cargador)
    requires gs != []
    ensures var todos := ComoGateways(db, gs, k);
      todos != [] && todos[|todos| - 1] == AsGateway(db, gs[|gs| - 1], Variables, k)
      && todos[..|todos| - 1] == ComoGateways(db, gs[..|gs| - 1], k)
  {}

  lemma {:induction false} EquiposDeUnaLista(db: Base, gs: seq<nat>, k: Cargador)
    requires Fiel(k)
    ensures SumaEquipos(ComoGateways(db, gs, k)) == SumaHijos(db.equipos, gs)
    ensures SumaVariablesDe(ComoGateways(db, gs, k)) == SumaHijos(GatewayDeVariable(db), gs)
  {
    if gs != [] {
      var n := |gs| - 1;
      EquiposDeUnaLista(db, gs[..n], k);
      PrefijoDeGateways(db, gs, k);
      DebajoDeUnGateway(db, gs[n], k);
    }
  }

  function SitioDeEquipo(db: Base): map<nat, nat> { Componer(db.equipos, SitioDe(db)) }

  function SitioDeVariable(db: Base): map<nat, nat> { Componer(GatewayDeVariable(db), SitioDe(db)) }

  lemma DebajoDeUnSitio(db: Base, s: nat, k: Cargador)
    requires Fiel(k)
    ensures |GatewaysDe(AsSite(db, s, Variables, k))| == |Hijos(SitioDe(db), s)|
    ensures SumaEquipos(GatewaysDe(AsSite(db, s, Variables, k))) == |Hijos(SitioDeEquipo(db), s)|
    ensures SumaVariablesDe(GatewaysDe(AsSite(db, s, Variables, k))) == |Hijos(SitioDeVariable(db), s)|
  {
    var gs := k.lista(Hijos(SitioDe(db), s));
    ListaDeHijos(k, SitioDe(db), s);
    EquiposDeUnaLista(db, gs, k);
    NietosPorLista(k, db.equipos, SitioDe(db), s);
    NietosPorLista(k, GatewayDeVariable(db), SitioDe(db), s);
    assert GatewaysDe(AsSite(db, s, Variables, k)) == ComoGateways(db, gs, k);
  }

  lemma PrefijoDeSitios(db: Base, ss: seq<nat>, k: Cargador)
    requires ss != []
    ensures var todos := ComoSitios(db, ss, k);
      todos != [] && todos[|todos| - 1] == AsSite(db, ss[|ss| - 1], Variables, k)
      && todos[..|todos| - 1] == ComoSitios(db, ss[..|ss| - 1], k)
  {}

  lemma {:induction false} SitiosDeUnaLista(db: Base, ss: seq<nat>, k: Cargador)
    requires Fiel(k)
    ensures TotalGateways(ComoSitios(db, ss, k)) == SumaHijos(SitioDe(db), ss)
    ensures TotalEquipos(ComoSitios(db, ss, k)) == SumaHijos(SitioDeEquipo(db), ss)
    ensures TotalVariables(ComoSitios(db, ss, k)) == SumaHijos(SitioDeVariable(db), ss)
  {
    if ss != [] {
      var n := |ss| - 1;
      SitiosDeUnaLista(db, ss[..n], k);
      PrefijoDeSitios(db, ss, k);
      DebajoDeUnSitio(db, ss[n], k);
    }
  }

  // --- joins ----------------------------------------------------------------

  /** A join along foreign keys returns one row for each row it starts from. */
  lemma {:induction false} UnaFilaPorClave<T>(filas: set<T>, claves: set<nat>, clave: T -> nat, fila: nat -> T)
    requires forall p :: p in filas ==> clave(p) in claves && fila(clave(p)) == p
    requires forall x :: x in claves ==> fila(x) in filas && clave(fila(x)) == x
    ensures |filas| == |claves|
  {
    if claves == {} {
      assert filas == {};
    } else {
      var x :| x in claves;
      UnaFilaPorClave(filas - {fila(x)}, claves - {x}, clave, fila);
    }
  }

  function ClienteDeGateway(db: Base): map<nat, nat> { Componer(SitioDe(db), db.sitios) }
  function ClienteDeEquipo(db: Base): map<nat, nat> { Componer(SitioDeEquipo(db), db.sitios) }
  function ClienteDeVariable(db: Base): map<nat, nat> { Componer(SitioDeVariable(db), db.sitios) }

  lemma JoinsCuentan(db: Base, c: nat)
    requires Integra(db)
    ensures |GatewaySite(db, c)| == |Hijos(ClienteDeGateway(db), c)|
    ensures |EquipmentGatewaySite(db, c)| == |Hijos(ClienteDeEquipo(db), c)|
    ensures |VariableEquipmentGatewaySite(db, c)| == |Hijos(ClienteDeVariable(db), c)|
  {
    JoinGateways(db, c);
    JoinEquipos(db, c);
    JoinVariables(db, c);
  }

  lemma JoinGateways(db: Base, c: nat)
    requires Integra(db)
    ensures |GatewaySite(db, c)| == |Hijos(ClienteDeGateway(db), c)|
  {
    UnaFilaPorClave(GatewaySite(db, c), Hijos(ClienteDeGateway(db), c), (p: (nat, nat)) => p.0,
                    (g: nat) => (g, if g in db.gateways then db.gateways[g].sitio else 0));
  }

  lemma JoinEquipos(db: Base, c: nat)
    requires Integra(db)
    ensures |EquipmentGatewaySite(db, c)| == |Hijos(ClienteDeEquipo(db), c)|
  {
    var fila := (e: nat) =>
      if e in db.equipos && db.equipos[e] in db.gateways then (e, db.equipos[e], db.gateways[db.equipos[e]].sitio) else (e, 0, 0);
    forall e | e in Hijos(ClienteDeEquipo(db), c)
      ensures fila(e) in EquipmentGatewaySite(db, c)
    {
      assert (fila(e).1, fila(e).2) in GatewaySite(db, c);
    }
    UnaFilaPorClave(EquipmentGatewaySite(db, c), Hijos(ClienteDeEquipo(db), c), (p: (nat, nat, nat)) => p.0, fila);
  }

  lemma JoinVariables(db: Base, c: nat)
    requires Integra(db)
    ensures |VariableEquipmentGatewaySite(db, c)| == |Hijos(ClienteDeVariable(db), c)|
  {
    var fila := (v: nat) =>
      if v in db.variables && db.variables[v] in db.equipos && db.equipos[db.variables[v]] in db.gateways
      then (v, db.variables[v], db.equipos[db.variables[v]], db.gateways[db.equipos[db.variables[v]]].sitio) else (v, 0, 0, 0);
    forall v | v in Hijos(ClienteDeVariable(db), c)
      ensures fila(v) in VariableEquipmentGatewaySite(db, c)
    {
      var (_, e, g, s) := fila(v);
      assert (g, s) in GatewaySite(db, c);
      assert (e, g, s) in EquipmentGatewaySite(db, c);
    }
    UnaFilaPorClave(VariableEquipmentGatewaySite(db, c), Hijos(ClienteDeVariable(db), c), (p: (nat, nat, nat, nat)) => p.0, fila);
  }

  // --- the counts and the tree ----------------------------------------------

  lemma SedesSonHijos(db: Base, c: nat)
    ensures Sedes(db, c) == |Hijos(db.sitios, c)|
  {
    assert Hijos(db.sitios, c) == set s | s in db.sitios && db.sitios[s] == c;
  }

  /** Each count of a client's summary is the size of that layer of its tree: the joins inflate
      none of them, and the tree loses and repeats no row. */
  lemma ResumenEsElArbol(db: Base, c: nat, corte: int, k: Cargador)
    requires Integra(db) && Fiel(k)
    ensures var r := Resumen(db, c, corte);
      var arbol := AsClient(db, c, Variables, k);
      && r.sedes == |arbol.sites|
      && r.gateways == TotalGateways(arbol.sites)
      && r.equipos == TotalEquipos(arbol.sites)
      && r.variables == TotalVariables(arbol.sites)
  {
    var ss := k.lista(Hijos(db.sitios, c));
    ListaDeHijos(k, db.sitios, c);
    SitiosDeUnaLista(db, ss, k);
    NietosPorLista(k, SitioDe(db), db.sitios, c);
    NietosPorLista(k, SitioDeEquipo(db), db.sitios, c);
    NietosPorLista(k, SitioDeVariable(db), db.sitios, c);
    JoinsCuentan(db, c);
    SedesSonHijos(db, c);
    assert AsClient(db, c, Variables, k).sites == ComoSitios(db, ss, k);
  }

  /** A tree cut at a level reports what is below as absent, never as empty. */
  lemma NivelCortaElArbol(db: Base, c: nat, level: FleetLevel, k: Cargador)
    ensures forall s :: s in AsClient(db, c, level, k).sites ==>
      && (s.gateways.Some? <==> level != Sitios)
      && forall g :: g in GatewaysDe(s) ==>
           && (g.equipment.Some? <==> level == Equipos || level == Variables)
           && forall e :: e in EquiposDe(g) ==> (e.variables.Some? <==> level == Variables)
  {}

  /** The sums of the clients' counts. */
  function SumaResumen(db: Base, cs: seq<nat>, corte: int): ClientSummary {
    if cs == [] then ClientSummary(0, 0, 0, 0, 0)
    else
      var a, r := SumaResumen(db, cs[..|cs| - 1], corte), Resumen(db, cs[|cs| - 1], corte);
      ClientSummary(a.sedes + r.sedes, a.gateways + r.gateways, a.enLinea + r.enLinea, a.equipos + r.equipos, a.variables + r.variables)
  }

  lemma {:induction false} SumaPorCliente(db: Base, cs: seq<nat>, corte: int)
    requires Integra(db)
    ensures var a := SumaResumen(db, cs, corte);
      && a.sedes == SumaHijos(db.sitios, cs) && a.gateways == SumaHijos(ClienteDeGateway(db), cs)
      && a.equipos == SumaHijos(ClienteDeEquipo(db), cs) && a.variables == SumaHijos(ClienteDeVariable(db), cs)
  {
    if cs != [] {
      var n := |cs| - 1;
      SumaPorCliente(db, cs[..n], corte);
      JoinsCuentan(db, cs[n]);
      SedesSonHijos(db, cs[n]);
    }
  }

  lemma TodasCuentan(m: map<nat, nat>, padres: seq<nat>)
    requires Distintos(padres) && forall h :: h in m ==> m[h] in padres
    ensures SumaHijos(m, padres) == |m|
  {
    SumaHijosCuenta(m, padres);
    assert Descendientes(m, padres) == m.Keys;
  }

  lemma TodaFilaTieneCliente(db: Base)
    requires Integra(db)
    ensures ClienteDeGateway(db).Keys == db.gateways.Keys && ClienteDeEquipo(db).Keys == db.equipos.Keys
    ensures ClienteDeVariable(db).Keys == db.variables.Keys
    ensures forall m, h :: m in [ClienteDeGateway(db), ClienteDeEquipo(db), ClienteDeVariable(db)] && h in m ==> m[h] in db.clientes
  {}

  /** Added over all clients, the counts are the sizes of the tables: every row is counted for
      one client and for no other. */
  lemma SumaEsLaTabla(db: Base, cs: seq<nat>, corte: int)
    requires Integra(db) && Distintos(cs) && forall c :: c in cs <==> c in db.clientes
    ensures var a := SumaResumen(db, cs, corte);
      a.sedes == |db.sitios| && a.gateways == |db.gateways| && a.equipos == |db.equipos| && a.variables == |db.variables|
  {
    SumaPorCliente(db, cs, corte);
    TodaFilaTieneCliente(db);
    var gs, es, vs := ClienteDeGateway(db), ClienteDeEquipo(db), ClienteDeVariable(db);
    assert gs in [gs, es, vs] && es in [gs, es, vs] && vs in [gs, es, vs];
    TodasCuentan(db.sitios, cs);
    TodasCuentan(gs, cs);
    TodasCuentan(es, cs);
    TodasCuentan(vs, cs);
    assert |gs| == |gs.Keys| && |es| == |es.Keys| && |vs| == |vs.Keys| && |db.gateways| == |db.gateways.Keys|
      && |db.equipos| == |db.equipos.Keys| && |db.variables| == |db.variables.Keys|;
  }

  // --- online and offline ---------------------------------------------------

  /** For one clock value the filters of the database and the status of each row agree, and a
      client's gateways are the ones online plus the ones listed as down. */
  lemma EnLineaMasCaidos(db: Base, c: nat, ahora: int)
    ensures forall u: Option<int> ::
      && (EnLinea(u, ahora - OFFLINE_AFTER) <==> DeriveStatus(u, ahora) == Online)
      && (SinConexion(u, ahora - OFFLINE_AFTER) <==> DeriveStatus(u, ahora) == Offline)
    ensures forall u: Option<int> ::
      DeriveStatus(u, ahora) == Online <==> u.Some? && ahora <= u.value + 5 * 60 * 1_000_000
    ensures Resumen(db, c, ahora - OFFLINE_AFTER).enLinea + |Caidos(db, c, ahora - OFFLINE_AFTER)|
         == Resumen(db, c, ahora - OFFLINE_AFTER).gateways
  {
    var corte := ahora - OFFLINE_AFTER;
    var arriba := set p | p in GatewaySite(db, c) && EnLinea(db.gateways[p.0].ultimaConexion, corte);
    assert arriba !! Caidos(db, c, corte);
    assert arriba + Caidos(db, c, corte) == GatewaySite(db, c);
  }
}
