/** The configuration a gateway downloads, its fingerprint, and the switch that stops it from
    being applied again and again (app/services/gateway_config.py). */
module ConfigGateway {
  import opened Wrappers
  import Equipos
  import Registros

  datatype TipoDato = Int16 | Uint16 | Int32 | Uint32 | Float32

  function AsFirmwareDataType(t: TipoDato): string {
    match t
    case Float32 => "f"
    case Int16 => "h"
    case Uint16 => "H"
    case Int32 => "i"
    case Uint32 => "I"
  }

  datatype Variable = Variable(nombre: string, registro: nat, notacion: Registros.Notacion, tipoDato: TipoDato,
                               escala: string, unidad: Option<string>, tipoRegistro: string)

  datatype Interruptores = Interruptores(connect: bool, read: bool, block: bool)

  /** A device: its row of the equipment table, what the row says besides how to reach it, and its
      variables in the order the query returned them. */
  datatype Dispositivo = Dispositivo(id: nat, nombre: string, tipo: string, fila: Equipos.Equipo, funcion: int,
                                     interruptores: Interruptores, variables: seq<Variable>)

  datatype Entrada = Entrada(address: string, dataType: string, gain: string, unit: Option<string>, registerType: string)

  datatype Device = Device(name: string, identify: nat, deviceType: string, protocol: string, conexion: Equipos.Valores,
                           deviceId: int, funcion: int, interruptores: Interruptores, mapa: map<string, Entrada>)

  /** The columns of the gateway that the document carries. */
  datatype Datos = Datos(uuid: nat, numeroSerie: string, firmwareVersion: Option<string>, logLevel: string,
                         intervalo: int, horaInicio: int, horaFin: int)

  /** The document without `generated_at`, which the fingerprint leaves out. */
  datatype Documento = Documento(datos: Datos, devices: seq<Device>)

  // --- assembling it --------------------------------------------------------

  function ComoEntrada(v: Variable): Entrada {
    Entrada(Registros.AsFirmwareAddress(v.registro, v.notacion), AsFirmwareDataType(v.tipoDato), v.escala, v.unidad, v.tipoRegistro)
  }

  /** The dictionary built by walking the variables: a later name would replace an earlier one. */
  function Mapa(vs: seq<Variable>): map<string, Entrada> {
    if vs == [] then map[]
    else Mapa(vs[..|vs| - 1])[vs[|vs| - 1].nombre := ComoEntrada(vs[|vs| - 1])]
  }

  function Insertar(v: Variable, vs: seq<Variable>): seq<Variable> {
    if vs == [] then [v]
    else if vs[|vs| - 1].registro <= v.registro then vs + [v]
    else Insertar(v, vs[..|vs| - 1]) + [vs[|vs| - 1]]
  }

  /** The variables by register; those at the same register keep their order. */
  function PorRegistro(vs: seq<Variable>): seq<Variable> {
    if vs == [] then [] else Insertar(vs[|vs| - 1], PorRegistro(vs[..|vs| - 1]))
  }

  /** The connection fields of its own transport, and no value for the others. */
  function Conexion(e: Equipos.Equipo): Equipos.Valores {
    map n: Equipos.Campo | n in Equipos.CAMPOS ::
      if n in Equipos.Propios(e.transporte) then Equipos.Get(e.campos, n) else Equipos.Nulo
  }

  function ComoDevice(e: Dispositivo): Device {
    Device(e.nombre, e.id, e.tipo, if e.fila.transporte.Rtu? then "RTU" else "TCP", Conexion(e.fila),
           e.fila.modbusId, e.funcion, e.interruptores, Mapa(PorRegistro(e.variables)))
  }

  function ComoDocumento(d: Datos, servidos: seq<Dispositivo>): Documento {
    Documento(d, seq(|servidos|, i requires 0 <= i < |servidos| => ComoDevice(servidos[i])))
  }

  ghost predicate PorModbusId(ds: seq<Dispositivo>) {
    forall i, j :: 0 <= i < j < |ds| ==> ds[i].fila.modbusId <= ds[j].fila.modbusId
  }

  /** An order in which a query sorted by unit id may return the rows: the database is free on ties. */
  ghost predicate Servido(equipos: seq<Dispositivo>, ds: seq<Dispositivo>) {
    multiset(ds) == multiset(equipos) && PorModbusId(ds)
  }

  // --- the fingerprint and the order of rows --------------------------------

  predicate NombresUnicos(vs: seq<Variable>) {
    forall i, j :: 0 <= i < j < |vs| ==> vs[i].nombre != vs[j].nombre
  }

  lemma {:induction false} MapaContiene(vs: seq<Variable>, n: string)
    ensures n in Mapa(vs) <==> exists v :: v in vs && v.nombre == n
    ensures n in Mapa(vs) ==> exists v :: v in vs && v.nombre == n && Mapa(vs)[n] == ComoEntrada(v)
  {
    if vs != [] {
      var k := |vs| - 1;
      MapaContiene(vs[..k], n);
      assert vs == vs[..k] + [vs[k]];
      assert vs[k] in vs;
    }
  }

  lemma NombreDeUno(vs: seq<Variable>, v: Variable, w: Variable)
    requires NombresUnicos(vs) && v in vs && w in vs && v.nombre == w.nombre
    ensures v == w
  {}

  /** With the names of one device unique, its map does not depend on the order of its rows. */
  lemma MapaSinOrden(vs: seq<Variable>, ws: seq<Variable>)
    requires multiset(vs) == multiset(ws) && NombresUnicos(vs)
    ensures Mapa(vs) == Mapa(ws)
  {
    assert forall v :: v in vs <==> v in multiset(vs);
    assert forall v :: v in ws <==> v in multiset(ws);
    forall n
      ensures n in Mapa(vs) <==> n in Mapa(ws)
      ensures n in Mapa(vs) ==> Mapa(vs)[n] == Mapa(ws)[n]
    {
      MapaContiene(vs, n);
      MapaContiene(ws, n);
      if n in Mapa(vs) {
        var v :| v in vs && v.nombre == n && Mapa(vs)[n] == ComoEntrada(v);
        var w :| w in ws && w.nombre == n && Mapa(ws)[n] == ComoEntrada(w);
        NombreDeUno(vs, v, w);
      }
    }
  }

  lemma {:induction false} InsertarPermuta(v: Variable, vs: seq<Variable>)
    ensures multiset(Insertar(v, vs)) == multiset(vs) + multiset{v}
  {
    if vs != [] && v.registro < vs[|vs| - 1].registro {
      InsertarPermuta(v, vs[..|vs| - 1]);
      assert vs == vs[..|vs| - 1] + [vs[|vs| - 1]];
    }
  }

  lemma ConElUltimo(vs: seq<Variable>)
    requires vs != []
    ensures multiset(vs) == multiset(vs[..|vs| - 1]) + multiset{vs[|vs| - 1]}
  {
    assert vs == vs[..|vs| - 1] + [vs[|vs| - 1]];
  }

  lemma {:induction false} PorRegistroPermuta(vs: seq<Variable>)
    ensures multiset(PorRegistro(vs)) == multiset(vs)
  {
    if vs == [] {
    } else {
      var previas, v := vs[..|vs| - 1], vs[|vs| - 1];
      PorRegistroPermuta(previas);
      ConElUltimo(vs);
      var ws := PorRegistro(previas);
      InsertarPermuta(v, ws);
    }
  }

  /** The order in which the query returns a device's variables does not reach the document. */
  lemma VariablesSinOrden(e: Dispositivo, vs: seq<Variable>)
    requires multiset(vs) == multiset(e.variables) && NombresUnicos(e.variables)
    ensures ComoDevice(e.(variables := vs)) == ComoDevice(e)
  {
    PorRegistroPermuta(vs);
    PorRegistroPermuta(e.variables);
    MapaSinOrden(e.variables, PorRegistro(e.variables));
    MapaSinOrden(e.variables, PorRegistro(vs));
  }

  lemma {:induction false} MapaExacto(vs: seq<Variable>, v: Variable)
    requires NombresUnicos(vs) && v in vs
    ensures v.nombre in Mapa(vs) && Mapa(vs)[v.nombre] == ComoEntrada(v)
  {
    MapaContiene(vs, v.nombre);
    var w :| w in vs && w.nombre == v.nombre && Mapa(vs)[v.nombre] == ComoEntrada(w);
    NombreDeUno(vs, v, w);
  }

  /** The letter the firmware reads as a type: small ones have a sign, capitals have none. */
  predicate EsLetraDe(letra: string, t: TipoDato) {
    match t
    case Int16 => letra == "h"
    case Uint16 => letra == "H"
    case Int32 => letra == "i"
    case Uint32 => letra == "I"
    case Float32 => letra == "f"
  }

  /** A row that creates and patches leave is sent as it is stored: no field is lost, and none of
      the other transport's was there to hide. */
  lemma ConexionDeFilaSana(e: Equipos.Equipo)
    requires Equipos.FilaSana(e)
    ensures Conexion(e) == e.campos
  {
    Equipos.PuntoFijoSii(e.transporte, e.campos);
    forall n: Equipos.Campo
      ensures n in Conexion(e) && n in e.campos && Conexion(e)[n] == e.campos[n]
    {
      Equipos.TodosSonCampos(n);
      Equipos.CamposDe(e.transporte, n);
    }
  }

  /** What an entry has to tell of its variable: an address that reads back as the register in its
      notation, and the type, gain, unit and kind. */
  predicate Dice(x: Entrada, v: Variable) {
    && Registros.ParseAddress(x.address, v.notacion) == Ok(v.registro) && (v.notacion.Hex? <==> Registros.PrefijoHex(x.address))
    && EsLetraDe(x.dataType, v.tipoDato) && x.gain == v.escala && x.unit == v.unidad && x.registerType == v.tipoRegistro
  }

  lemma EntradasDicen(e: Dispositivo)
    requires NombresUnicos(e.variables)
    ensures var mapa := ComoDevice(e).mapa;
      && (forall v :: v in e.variables ==> v.nombre in mapa && Dice(mapa[v.nombre], v))
      && (forall n :: n in mapa ==> exists v :: v in e.variables && v.nombre == n)
  {
    var mapa := Mapa(e.variables);
    PorRegistroPermuta(e.variables);
    MapaSinOrden(e.variables, PorRegistro(e.variables));
    forall v | v in e.variables
      ensures v.nombre in mapa && Dice(mapa[v.nombre], v)
    {
      MapaExacto(e.variables, v);
      Registros.IdaYVuelta(v.registro, v.notacion);
    }
    forall n | n in mapa
      ensures exists v :: v in e.variables && v.nombre == n
    {
      MapaContiene(e.variables, n);
    }
  }

  /** The device section the firmware receives: one entry for each variable and no other, each telling
      all of its variable; what the row says of the device; and the fields of its own transport, with
      no value for the other's, which for a row the service left is the row as it is. */
  lemma DeviceDiceLoGuardado(e: Dispositivo)
    requires NombresUnicos(e.variables)
    ensures var d := ComoDevice(e);
      && (forall v :: v in e.variables ==> v.nombre in d.mapa && Dice(d.mapa[v.nombre], v))
      && (forall n :: n in d.mapa ==> exists v :: v in e.variables && v.nombre == n)
      && d.name == e.nombre && d.identify == e.id && d.deviceType == e.tipo
      && d.protocol == (match e.fila.transporte case Rtu => "RTU" case Tcp => "TCP")
      && d.funcion == e.funcion && d.interruptores == e.interruptores && d.deviceId == e.fila.modbusId
      && (forall n :: n in Equipos.Propios(e.fila.transporte) ==> Equipos.Get(d.conexion, n) == Equipos.Get(e.fila.campos, n))
      && (forall n :: n in Equipos.Ajenos(e.fila.transporte) ==> Equipos.Get(d.conexion, n).Nulo?)
      && (Equipos.FilaSana(e.fila) ==> d.conexion == e.fila.campos)
  {
    forall n: Equipos.Campo
      ensures n in Equipos.CAMPOS && !(n in Equipos.Propios(e.fila.transporte) && n in Equipos.Ajenos(e.fila.transporte))
    {
      Equipos.TodosSonCampos(n);
      Equipos.DefaultsDe(e.fila.transporte);
    }
    if Equipos.FilaSana(e.fila) { ConexionDeFilaSana(e.fila); }
    EntradasDicen(e);
  }

  /** The primary key: two different rows have different ids. */
  ghost predicate ClavePrimaria(es: seq<Dispositivo>) {
    forall a, b :: a in es && b in es && a != b ==> a.id != b.id
  }

  ghost predicate SinEmpates(es: seq<Dispositivo>) {
    forall a, b :: a in es && b in es && a != b ==> a.fila.modbusId != b.fila.modbusId
  }

  lemma MismosElementos(ds: seq<Dispositivo>, xs: seq<Dispositivo>)
    requires multiset(ds) == multiset(xs)
    ensures |ds| == |xs| && forall e :: e in ds <==> e in xs
  {
    assert |ds| == |multiset(ds)| && |xs| == |multiset(xs)|;
    assert forall e :: e in ds <==> e in multiset(ds);
    assert forall e :: e in xs <==> e in multiset(xs);
  }

  lemma {:induction false} UnSoloOrden(ds: seq<Dispositivo>, xs: seq<Dispositivo>)
    requires multiset(ds) == multiset(xs) && PorModbusId(ds) && PorModbusId(xs) && SinEmpates(ds)
    ensures ds == xs
  {
    if ds == [] {
      MismosElementos(ds, xs);
    } else {
      MismaCabeza(ds, xs);
      ColaDe(ds);
      ColaDe(xs);
      assert forall e :: e in ds[1..] ==> e in ds;
      UnSoloOrden(ds[1..], xs[1..]);
      assert ds == [ds[0]] + ds[1..] && xs == [xs[0]] + xs[1..];
    }
  }

  lemma MismaCabeza(ds: seq<Dispositivo>, xs: seq<Dispositivo>)
    requires multiset(ds) == multiset(xs) && PorModbusId(ds) && PorModbusId(xs) && SinEmpates(ds) && ds != []
    ensures xs != [] && ds[0] == xs[0]
  {
    MismosElementos(ds, xs);
    assert ds[0] in xs && xs[0] in ds;
  }

  lemma ColaDe(ds: seq<Dispositivo>)
    requires ds != []
    ensures multiset(ds[1..]) == multiset(ds) - multiset{ds[0]}
  {
    assert ds == [ds[0]] + ds[1..];
  }

  lemma {:induction false} InsertarEquipo(e: Dispositivo, ds: seq<Dispositivo>) returns (xs: seq<Dispositivo>)
    requires PorModbusId(ds)
    ensures PorModbusId(xs) && multiset(xs) == multiset(ds) + multiset{e}
  {
    if ds == [] || ds[|ds| - 1].fila.modbusId <= e.fila.modbusId {
      xs := ds + [e];
    } else {
      var n := |ds| - 1;
      var ys := InsertarEquipo(e, ds[..n]);
      xs := ys + [ds[n]];
      assert ds == ds[..n] + [ds[n]];
      forall y | y in ys
        ensures y.fila.modbusId <= ds[n].fila.modbusId
      {
        assert y in multiset(ys);
        assert y in multiset(ds[..n]) || y == e;
      }
    }
  }

  lemma {:induction false} HayUnOrden(es: seq<Dispositivo>) returns (ds: seq<Dispositivo>)
    ensures Servido(es, ds)
  {
    if es == [] {
      ds := [];
    } else {
      var n := |es| - 1;
      ds := HayUnOrden(es[..n]);
      ds := InsertarEquipo(es[n], ds);
      assert es == es[..n] + [es[n]];
    }
  }

  /** Two devices with the same unit id may come back in either order, and the documents differ. */
  lemma EmpateDaDosDocumentos(d: Datos, es: seq<Dispositivo>, a: Dispositivo, b: Dispositivo) returns (ds: seq<Dispositivo>, xs: seq<Dispositivo>)
    requires a in es && b in es && a.id != b.id && a.fila.modbusId == b.fila.modbusId
    ensures Servido(es, ds) && Servido(es, xs) && ComoDocumento(d, ds) != ComoDocumento(d, xs)
  {
    ds := HayUnOrden(es);
    MismosElementos(ds, es);
    var i :| 0 <= i < |ds| && ds[i] == a;
    var j :| 0 <= j < |ds| && ds[j] == b;
    xs := ds[i := b][j := a];
    assert forall k :: 0 <= k < |ds| ==> xs[k].fila.modbusId == ds[k].fila.modbusId;
    assert ComoDocumento(d, ds).devices[i].identify == a.id && ComoDocumento(d, xs).devices[i].identify == b.id;
  }

  /** The fingerprint does not depend on the order the database returns the devices in exactly
      when no two of them share a unit id. Devices on different buses may share one. */
  lemma DocumentoSinOrdenSii(d: Datos, es: seq<Dispositivo>)
    requires ClavePrimaria(es)
    ensures SinEmpates(es) <==>
      forall ds: seq<Dispositivo>, xs: seq<Dispositivo> :: Servido(es, ds) && Servido(es, xs) ==> ComoDocumento(d, ds) == ComoDocumento(d, xs)
  {
    if SinEmpates(es) {
      forall ds: seq<Dispositivo>, xs: seq<Dispositivo> | Servido(es, ds) && Servido(es, xs)
        ensures ComoDocumento(d, ds) == ComoDocumento(d, xs)
      {
        MismosElementos(ds, es);
        UnSoloOrden(ds, xs);
      }
    } else {
      var a, b :| a in es && b in es && a != b && a.fila.modbusId == b.fila.modbusId;
      var ds, xs := EmpateDaDosDocumentos(d, es, a, b);
      assert Servido(es, ds) && Servido(es, xs) && ComoDocumento(d, ds) != ComoDocumento(d, xs);
    }
  }

  // --- the switch and the acknowledgement -----------------------------------

  datatype Estado = Estado(datos: Datos, equipos: seq<Dispositivo>, habilitada: bool, aplicada: Option<string>,
                           aplicadaEn: Option<int>, ultimaConexion: Option<int>)

  function Construir(e: Estado, pedido: nat, exigir: bool, servidos: seq<Dispositivo>): Result<Documento, Error> {
    if e.datos.uuid != pedido then Err(NoEncontrado)
    else if exigir && !e.habilitada then Err(NoAutorizado)
    else Ok(ComoDocumento(e.datos, servidos))
  }

  function Reconocer(e: Estado, huella: Documento -> string, version: string, servidos: seq<Dispositivo>, ahora: int)
    : (Estado, Result<(), Error>)
  {
    match Construir(e, e.datos.uuid, true, servidos)
    case Err(error) => (e, Err(error))
    case Ok(doc) =>
      if version != huella(doc) then (e, Err(ReglaDeNegocio))
      else (e.(aplicada := Some(version), aplicadaEn := Some(ahora), ultimaConexion := Some(ahora), habilitada := false), Ok(()))
  }

  /** `status_for_crm`: whether the device lags behind what would be served. */
  predicate Desactualizada(e: Estado, huella: Documento -> string, servidos: seq<Dispositivo>) {
    e.aplicada != Some(huella(ComoDocumento(e.datos, servidos)))
  }

  /** A document is handed over exactly to the gateway whose uuid is asked for, with the switch on if
      the switch counts; it says what the row says and lists the devices in the order served. */
  lemma ConstruirSii(e: Estado, pedido: nat, exigir: bool, servidos: seq<Dispositivo>)
    ensures var r := Construir(e, pedido, exigir, servidos);
      && (r.Ok? <==> e.datos.uuid == pedido && (exigir ==> e.habilitada))
      && (r.Err? ==> r.error == if e.datos.uuid != pedido then NoEncontrado else NoAutorizado)
      && (r.Ok? ==>
            && r.value.datos == e.datos && |r.value.devices| == |servidos|
            && forall i :: 0 <= i < |servidos| ==> r.value.devices[i] == ComoDevice(servidos[i]))
  {}

  class GatewayConfigService {
    const huella: Documento -> string
    var datos: Datos
    var equipos: seq<Dispositivo>
    var habilitada: bool
    var aplicada: Option<string>
    var aplicadaEn: Option<int>
    var ultimaConexion: Option<int>

    constructor (huella: Documento -> string, datos: Datos)
      ensures this.huella == huella && Valor() == Estado(datos, [], false, None, None, None)
    {
      this.huella, this.datos, equipos, habilitada := huella, datos, [], false;
      aplicada, aplicadaEn, ultimaConexion := None, None, None;
    }

    function Valor(): Estado
      reads this
    {
      Estado(datos, equipos, habilitada, aplicada, aplicadaEn, ultimaConexion)
    }

    /** `build`, with the rows as the query returns them. */
    method Build(pedido: nat, exigir: bool, servidos: seq<Dispositivo>) returns (r: Result<Documento, Error>)
      requires Servido(equipos, servidos)
      ensures r == Construir(Valor(), pedido, exigir, servidos)
    {
      if datos.uuid != pedido { return Err(NoEncontrado); }
      if exigir && !habilitada { return Err(NoAutorizado); }
      var devices: seq<Device> := [];
      for i := 0 to |servidos|
        invariant devices == ComoDocumento(datos, servidos[..i]).devices
      {
        devices := devices + [ComoDevice(servidos[i])];
      }
      assert servidos[..|servidos|] == servidos;
      r := Ok(Documento(datos, devices));
    }

    method Acknowledge(version: string, servidos: seq<Dispositivo>, ahora: int) returns (r: Result<(), Error>)
      requires Servido(equipos, servidos)
      modifies this
      ensures (Valor(), r) == Reconocer(old(Valor()), huella, version, servidos, ahora)
    {
      var doc := Build(datos.uuid, true, servidos);
      if doc.Err? { return Err(doc.error); }
      if version != huella(doc.value) { return Err(ReglaDeNegocio); }
      aplicada := Some(version);
      aplicadaEn := Some(ahora);
      ultimaConexion := Some(ahora);
      habilitada := false;
      r := Ok(());
    }

    method StatusForCrm(servidos: seq<Dispositivo>) returns (current: string, drifted: bool)
      requires Servido(equipos, servidos)
      ensures current == huella(ComoDocumento(datos, servidos))
      ensures drifted == Desactualizada(Valor(), huella, servidos)
    {
      var doc := Build(datos.uuid, false, servidos);
      current := huella(doc.value);
      drifted := aplicada != Some(current);
    }
  }

  // --- runs -----------------------------------------------------------------

  datatype Evento =
    | Editar(datos: Datos, equipos: seq<Dispositivo>)
    | Conmutar(encender: bool)
    | Latido(reportada: Option<string>, ahora: int)
    | Acusar(version: string, servidos: seq<Dispositivo>, ahora: int)

  function Paso(e: Estado, huella: Documento -> string, ev: Evento): Estado {
    match ev
    case Editar(datos, equipos) => e.(datos := datos.(uuid := e.datos.uuid), equipos := equipos)
    case Conmutar(encender) => e.(habilitada := encender)
    case Latido(reportada, ahora) =>
      e.(ultimaConexion := Some(ahora), datos := if reportada.Some? then e.datos.(firmwareVersion := reportada) else e.datos)
    case Acusar(version, servidos, ahora) => Reconocer(e, huella, version, servidos, ahora).0
  }

  predicate Reconoce(e: Estado, huella: Documento -> string, ev: Evento) {
    ev.Acusar? && Reconocer(e, huella, ev.version, ev.servidos, ev.ahora).1.Ok?
  }

  predicate Enciende(e: Estado, ev: Evento) { ev.Conmutar? && ev.encender && !e.habilitada }

  ghost predicate Corrida(es: seq<Estado>, evs: seq<Evento>, huella: Documento -> string) {
    && |es| == |evs| + 1 && !es[0].habilitada
    && forall i {:trigger Paso(es[i], huella, evs[i])} :: 0 <= i < |evs| ==> es[i + 1] == Paso(es[i], huella, evs[i])
  }

  ghost function Reconocidos(es: seq<Estado>, evs: seq<Evento>, huella: Documento -> string, n: nat): nat
    requires n <= |evs| < |es|
  {
    if n == 0 then 0
    else Reconocidos(es, evs, huella, n - 1) + if Reconoce(es[n - 1], huella, evs[n - 1]) then 1 else 0
  }

  ghost function Encendidos(es: seq<Estado>, evs: seq<Evento>, n: nat): nat
    requires n <= |evs| < |es|
  {
    if n == 0 then 0 else Encendidos(es, evs, n - 1) + if Enciende(es[n - 1], evs[n - 1]) then 1 else 0
  }

  /** In every run a configuration is acknowledged at most once for each time somebody turned the
      download on: the cycle cannot feed itself. */
  lemma {:induction false} UnAcusePorEncendido(es: seq<Estado>, evs: seq<Evento>, huella: Documento -> string, n: nat)
    requires Corrida(es, evs, huella) && n <= |evs|
    ensures Reconocidos(es, evs, huella, n) + (if es[n].habilitada then 1 else 0) <= Encendidos(es, evs, n)
  {
    if n > 0 {
      UnAcusePorEncendido(es, evs, huella, n - 1);
      assert es[n] == Paso(es[n - 1], huella, evs[n - 1]);
    }
  }

  /** An accepted acknowledgement records the document it was served, leaves the switch off and
      no drift; it is accepted exactly when the switch was on and the version is that document's.
      Refused, it changes nothing. */
  lemma AcuseCierra(e: Estado, huella: Documento -> string, version: string, servidos: seq<Dispositivo>, ahora: int)
    ensures var (f, r) := Reconocer(e, huella, version, servidos, ahora);
      && (r.Ok? <==> e.habilitada && version == huella(ComoDocumento(e.datos, servidos)))
      && (r.Err? ==> f == e && r.error == if e.habilitada then ReglaDeNegocio else NoAutorizado)
      && (r.Ok? ==>
            && !f.habilitada && f.aplicada == Some(version) && !Desactualizada(f, huella, servidos)
            && f.aplicadaEn == Some(ahora) && f.ultimaConexion == Some(ahora)
            && f.datos == e.datos && f.equipos == e.equipos
            && Reconocer(f, huella, version, servidos, ahora) == (f, Err(NoAutorizado)))
  {}

  lemma {:induction false} AplicadaPersiste(es: seq<Estado>, evs: seq<Evento>, huella: Documento -> string, i: nat, j: nat)
    requires Corrida(es, evs, huella) && i <= j <= |evs|
    requires forall k :: i <= k < j ==> !Reconoce(es[k], huella, evs[k])
    ensures es[j].aplicada == es[i].aplicada
  {
    if i < j {
      AplicadaPersiste(es, evs, huella, i, j - 1);
      assert es[j] == Paso(es[j - 1], huella, evs[j - 1]);
    }
  }

  ghost predicate Inyectiva(huella: Documento -> string) {
    forall x: Documento, y: Documento :: huella(x) == huella(y) ==> x == y
  }

  lemma MismaHuella(huella: Documento -> string, x: Documento, y: Documento)
    requires Inyectiva(huella)
    ensures huella(x) == huella(y) <==> x == y
  {}

  /** With a fingerprint that tells documents apart, drift says exactly that what would be served
      now is not what was last acknowledged. */
  lemma DerivaExacta(es: seq<Estado>, evs: seq<Evento>, huella: Documento -> string, i: nat, j: nat, servidos: seq<Dispositivo>)
    requires Inyectiva(huella)
    requires Corrida(es, evs, huella) && i < j <= |evs| && Reconoce(es[i], huella, evs[i])
    requires forall k :: i < k < j ==> !Reconoce(es[k], huella, evs[k])
    ensures Desactualizada(es[j], huella, servidos) <==>
      ComoDocumento(es[j].datos, servidos) != ComoDocumento(es[i].datos, evs[i].servidos)
  {
    assert es[i + 1] == Paso(es[i], huella, evs[i]);
    AplicadaPersiste(es, evs, huella, i + 1, j);
    MismaHuella(huella, ComoDocumento(es[j].datos, servidos), ComoDocumento(es[i].datos, evs[i].servidos));
  }

  /** The firmware version is in the document, so a device that comes back with another one
      looks out of date although nobody edited its configuration. */
  lemma FirmwareNuevoDeriva(e: Estado, huella: Documento -> string, servidos: seq<Dispositivo>, version: string, ahora: int)
    requires Inyectiva(huella)
    requires !Desactualizada(e, huella, servidos)
    ensures Desactualizada(Paso(e, huella, Latido(Some(version), ahora)), huella, servidos) <==>
      e.datos.firmwareVersion != Some(version)
  {
    var f := Paso(e, huella, Latido(Some(version), ahora));
    if e.datos.firmwareVersion == Some(version) {
      assert f.datos == e.datos;
    } else {
      assert ComoDocumento(f.datos, servidos) != ComoDocumento(e.datos, servidos);
    }
  }
}
