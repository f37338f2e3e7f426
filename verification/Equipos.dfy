/** Which connection fields a Modbus device carries (app/domain/modbus.py), and the rows that
    creates, patches and deletes leave (app/services/hierarchy.py, app/repositories/hierarchy.py). */
module Equipos {
  import opened Wrappers

  datatype Transporte = Rtu | Tcp

  datatype Valor = Nulo | Texto(s: string) | Entero(n: int)

  datatype Campo = Puerto | Baudrate | Paridad | Bits | StopBits | Host | PuertoTcp

  /** A dictionary of connection fields: a key may be missing, or present with no value. */
  type Valores = map<Campo, Valor>

  function Get(v: Valores, nombre: Campo): Valor { if nombre in v then v[nombre] else Nulo }

  const RTU_FIELDS := [Puerto, Baudrate, Paridad, Bits, StopBits]
  const TCP_FIELDS := [Host, PuertoTcp]
  const CAMPOS := RTU_FIELDS + TCP_FIELDS

  function Propios(t: Transporte): seq<Campo> { if t.Rtu? then RTU_FIELDS else TCP_FIELDS }

  function Ajenos(t: Transporte): seq<Campo> { if t.Rtu? then TCP_FIELDS else RTU_FIELDS }

  function Defaults(t: Transporte): seq<(Campo, Valor)> {
    match t
    case Rtu =>
      [(Puerto, Texto("/dev/ttymxc1")), (Baudrate, Entero(9600)), (Paridad, Texto("N")), (Bits, Entero(8)), (StopBits, Entero(1))]
    case Tcp => [(PuertoTcp, Entero(502))]
  }

  function Requerido(t: Transporte): Campo { if t.Rtu? then Puerto else Host }

  // --- what normalising means -----------------------------------------------

  function PorDefecto(t: Transporte, nombre: Campo): Valor {
    match t
    case Rtu =>
      if nombre == Puerto then Texto("/dev/ttymxc1") else if nombre == Baudrate then Entero(9600)
      else if nombre == Paridad then Texto("N") else if nombre == Bits then Entero(8)
      else if nombre == StopBits then Entero(1) else Nulo
    case Tcp => if nombre == PuertoTcp then Entero(502) else Nulo
  }

  predicate SinAjenos(t: Transporte, v: Valores) {
    forall n :: n in Ajenos(t) ==> Get(v, n).Nulo?
  }

  function Completo(t: Transporte, v: Valores): Valores {
    map n | n in v.Keys + (set c | c in CAMPOS) ::
      if n in Propios(t) && Get(v, n).Nulo? then PorDefecto(t, n) else Get(v, n)
  }

  function Normalizar(t: Transporte, v: Valores): Result<Valores, Error> {
    if !SinAjenos(t, v) || Get(Completo(t, v), Requerido(t)).Nulo? then Err(Validacion) else Ok(Completo(t, v))
  }

  function Nombres(ds: seq<(Campo, Valor)>): seq<Campo> { seq(|ds|, i requires 0 <= i < |ds| => ds[i].0) }

  lemma DefaultsDe(t: Transporte)
    ensures forall i :: 0 <= i < |Defaults(t)| ==> Defaults(t)[i].1 == PorDefecto(t, Defaults(t)[i].0) && Defaults(t)[i].0 in Propios(t)
    ensures forall i, j :: 0 <= i < j < |Defaults(t)| ==> Defaults(t)[i].0 != Defaults(t)[j].0
    ensures forall n :: n !in Nombres(Defaults(t)) ==> PorDefecto(t, n) == Nulo
    ensures forall n :: !(n in Propios(t) && n in Ajenos(t))
  {
    var ds := Defaults(t);
    assert forall i :: 0 <= i < |ds| ==> Nombres(ds)[i] == ds[i].0;
    assert t.Rtu? ==> Nombres(ds) == RTU_FIELDS;
    assert t.Tcp? ==> Nombres(ds) == [PuertoTcp];
  }

  ghost predicate EsAnulado(v: Valores, unused: seq<Campo>, r: Valores) {
    forall n: Campo ::
      && (n in r <==> n in v || n in unused)
      && Get(r, n) == if n in unused then Nulo else Get(v, n)
  }

  ghost predicate EsRelleno(v: Valores, t: Transporte, r: Valores) {
    forall n: Campo ::
      && (n in r <==> n in v || n in Nombres(Defaults(t)))
      && Get(r, n) == if Get(v, n).Nulo? then PorDefecto(t, n) else Get(v, n)
  }

  ghost predicate EsDeclarado(v: Valores, used: seq<Campo>, r: Valores) {
    forall n: Campo :: (n in r <==> n in v || n in used) && Get(r, n) == Get(v, n)
  }

  /** First pass: the fields of the other transport are there, with no value. */
  method Anular(values: Valores, unused: seq<Campo>) returns (result: Valores)
    ensures EsAnulado(values, unused, result)
  {
    result := values;
    for i := 0 to |unused|
      invariant forall n :: n in result <==> n in values || n in unused[..i]
      invariant forall n :: n in result ==> result[n] == if n in unused[..i] then Nulo else values[n]
    {
      result := result[unused[i] := Nulo];
    }
    assert unused[..|unused|] == unused;
  }

  /** Second pass: a field that has a default takes it unless it already has a value. */
  method Rellenar(values: Valores, t: Transporte) returns (result: Valores)
    ensures EsRelleno(values, t, result)
  {
    var defaults := Defaults(t);
    DefaultsDe(t);
    result := values;
    for i := 0 to |defaults|
      invariant forall n :: n in result <==> n in values || n in Nombres(defaults[..i])
      invariant forall n :: n in result ==>
        result[n] == if n in Nombres(defaults[..i]) && Get(values, n).Nulo? then PorDefecto(t, n) else Get(values, n)
    {
      var (nombre, valor) := defaults[i];
      assert Nombres(defaults[..i + 1]) == Nombres(defaults[..i]) + [nombre];
      if Get(result, nombre).Nulo? {
        result := result[nombre := valor];
      }
    }
    assert defaults[..|defaults|] == defaults;
  }

  /** Third pass: the fields of the own transport that are still missing are there, with no value. */
  method Declarar(values: Valores, used: seq<Campo>) returns (result: Valores)
    ensures EsDeclarado(values, used, result)
  {
    result := values;
    for i := 0 to |used|
      invariant forall n :: n in result <==> n in values || n in used[..i]
      invariant forall n :: n in result ==> result[n] == Get(values, n)
    {
      if used[i] !in result { result := result[used[i] := Nulo]; }
    }
    assert used[..|used|] == used;
  }

  lemma CamposDe(t: Transporte, n: Campo)
    ensures n in CAMPOS <==> n in Propios(t) || n in Ajenos(t)
  {
    assert CAMPOS == RTU_FIELDS + TCP_FIELDS;
  }

  lemma NombresPropios(t: Transporte, n: Campo)
    ensures n in Nombres(Defaults(t)) ==> n in Propios(t)
    ensures !PorDefecto(t, n).Nulo? ==> n in Nombres(Defaults(t))
  {
    DefaultsDe(t);
    assert forall i :: 0 <= i < |Defaults(t)| ==> Nombres(Defaults(t))[i] == Defaults(t)[i].0;
  }

  lemma CompletoEs(t: Transporte, v: Valores, n: Campo)
    ensures n in Completo(t, v) <==> n in v || n in CAMPOS
    ensures Get(Completo(t, v), n) == if n in Propios(t) && Get(v, n).Nulo? then PorDefecto(t, n) else Get(v, n)
  {
    CamposDe(t, n);
  }

  /** What the three loops leave is, key by key, the completed dictionary. */
  lemma RellenoEsCompleto(t: Transporte, v: Valores, anulado: Valores, relleno: Valores, n: Campo)
    requires SinAjenos(t, v) && EsAnulado(v, Ajenos(t), anulado) && EsRelleno(anulado, t, relleno)
    ensures n in Completo(t, v) <==> n in relleno || n in Propios(t)
    ensures Get(Completo(t, v), n) == Get(relleno, n)
  {
    CompletoEs(t, v, n);
    CamposDe(t, n);
    DefaultsDe(t);
    NombresPropios(t, n);
  }

  lemma DeclaradoEsCompleto(t: Transporte, v: Valores, anulado: Valores, relleno: Valores, r: Valores)
    requires SinAjenos(t, v) && EsAnulado(v, Ajenos(t), anulado) && EsRelleno(anulado, t, relleno)
    requires EsDeclarado(relleno, Propios(t), r)
    ensures r == Completo(t, v)
  {
    forall n: Campo
      ensures n in r <==> n in Completo(t, v)
      ensures Get(r, n) == Get(Completo(t, v), n)
    {
      RellenoEsCompleto(t, v, anulado, relleno, n);
    }
    IgualesPorClave(r, Completo(t, v));
  }

  /** `normalize_transport_fields`. */
  method NormalizeTransportFields(t: Transporte, values: Valores) returns (r: Result<Valores, Error>)
    ensures r == Normalizar(t, values)
  {
    if exists n :: n in Ajenos(t) && !Get(values, n).Nulo? { return Err(Validacion); }
    var anulado := Anular(values, Ajenos(t));
    var relleno := Rellenar(anulado, t);
    RellenoEsCompleto(t, values, anulado, relleno, Requerido(t));
    if Get(relleno, Requerido(t)).Nulo? { return Err(Validacion); }
    var result := Declarar(relleno, Propios(t));
    DeclaradoEsCompleto(t, values, anulado, relleno, result);
    r := Ok(result);
  }

  /** The database's `transport_fields_coherent`. */
  predicate Coherente(t: Transporte, v: Valores) {
    match t
    case Rtu => !Get(v, Puerto).Nulo? && !Get(v, Baudrate).Nulo? && Get(v, Host).Nulo? && Get(v, PuertoTcp).Nulo?
    case Tcp => !Get(v, Host).Nulo? && Get(v, Puerto).Nulo? && Get(v, Baudrate).Nulo?
  }

  /** A dictionary that normalising leaves as it is. */
  predicate PuntoFijo(t: Transporte, v: Valores) { Normalizar(t, v) == Ok(v) }

  /** Exactly which dictionaries those are: every field is there, the other transport's without a
      value, and of the own ones each that has a default or is required with one. */
  lemma PuntoFijoSii(t: Transporte, v: Valores)
    ensures PuntoFijo(t, v) <==>
      && (forall n :: n in CAMPOS ==> n in v)
      && (forall n :: n in Ajenos(t) ==> v[n].Nulo?)
      && (forall n :: n in Propios(t) && (!PorDefecto(t, n).Nulo? || n == Requerido(t)) ==> !v[n].Nulo?)
  {
    IgualesPorClave(Completo(t, v), v);
    forall n: Campo
      ensures n in Completo(t, v) && n in CAMPOS
      ensures n in Propios(t) || n in Ajenos(t)
      ensures Get(Completo(t, v), n) == if n in Propios(t) && Get(v, n).Nulo? then PorDefecto(t, n) else Get(v, n)
    {
      TodosSonCampos(n);
      CamposDe(t, n);
      CompletoEs(t, v, n);
    }
    DefaultsDe(t);
    assert Requerido(t) in Propios(t);
  }

  lemma TodosSonCampos(n: Campo)
    ensures n in CAMPOS
  {
    assert CAMPOS == [Puerto, Baudrate, Paridad, Bits, StopBits, Host, PuertoTcp];
  }

  lemma IgualesPorClave(a: Valores, b: Valores)
    ensures a == b <==> forall n: Campo :: (n in a <==> n in b) && Get(a, n) == Get(b, n)
  {
    if forall n: Campo :: (n in a <==> n in b) && Get(a, n) == Get(b, n) {
      assert forall n: Campo :: n in a ==> a[n] == Get(a, n) && b[n] == Get(b, n);
    }
  }

  /** Normalising ends at a fixed point, and a fixed point is a coherent row. */
  lemma NormalizarEstabiliza(t: Transporte, v: Valores)
    requires Normalizar(t, v).Ok?
    ensures PuntoFijo(t, Normalizar(t, v).value) && Coherente(t, Normalizar(t, v).value)
  {
    var w := Normalizar(t, v).value;
    forall n
      ensures n in CAMPOS <==> n in Propios(t) || n in Ajenos(t)
      ensures n in w <==> n in v || n in CAMPOS
      ensures Get(w, n) == if n in Propios(t) && Get(v, n).Nulo? then PorDefecto(t, n) else Get(v, n)
    {
      CamposDe(t, n);
      CompletoEs(t, v, n);
    }
    DefaultsDe(t);
    PuntoFijoSii(t, w);
    assert Puerto in RTU_FIELDS && Baudrate in RTU_FIELDS && Host in TCP_FIELDS && PuertoTcp in TCP_FIELDS by {
      assert RTU_FIELDS[0] == Puerto && RTU_FIELDS[1] == Baudrate && TCP_FIELDS[0] == Host && TCP_FIELDS[1] == PuertoTcp;
    }
  }

  function SiNulo(v: Valor, d: Valor): Valor { if v.Nulo? then d else v }

  lemma CompletaRtu(v: Valores)
    ensures var r := Completo(Rtu, v);
      && Get(r, Puerto) == SiNulo(Get(v, Puerto), Texto("/dev/ttymxc1")) && Get(r, Baudrate) == SiNulo(Get(v, Baudrate), Entero(9600))
      && Get(r, Paridad) == SiNulo(Get(v, Paridad), Texto("N")) && Get(r, Bits) == SiNulo(Get(v, Bits), Entero(8))
      && Get(r, StopBits) == SiNulo(Get(v, StopBits), Entero(1)) && Get(r, Host) == Get(v, Host) && Get(r, PuertoTcp) == Get(v, PuertoTcp)
  {
    CamposPorTransporte();
    CompletoEs(Rtu, v, Puerto);
    CompletoEs(Rtu, v, Baudrate);
    CompletoEs(Rtu, v, Paridad);
    CompletoEs(Rtu, v, Bits);
    CompletoEs(Rtu, v, StopBits);
    CompletoEs(Rtu, v, Host);
    CompletoEs(Rtu, v, PuertoTcp);
  }

  lemma CompletaTcp(v: Valores)
    ensures var r := Completo(Tcp, v);
      && Get(r, Host) == Get(v, Host) && Get(r, PuertoTcp) == SiNulo(Get(v, PuertoTcp), Entero(502))
      && Get(r, Puerto) == Get(v, Puerto) && Get(r, Baudrate) == Get(v, Baudrate) && Get(r, Paridad) == Get(v, Paridad)
      && Get(r, Bits) == Get(v, Bits) && Get(r, StopBits) == Get(v, StopBits)
  {
    CamposPorTransporte();
    CompletoEs(Tcp, v, Puerto);
    CompletoEs(Tcp, v, Baudrate);
    CompletoEs(Tcp, v, Paridad);
    CompletoEs(Tcp, v, Bits);
    CompletoEs(Tcp, v, StopBits);
    CompletoEs(Tcp, v, Host);
    CompletoEs(Tcp, v, PuertoTcp);
  }

  lemma SinAjenosSii(t: Transporte, v: Valores)
    ensures SinAjenos(t, v) <==>
      match t
      case Rtu => Get(v, Host).Nulo? && Get(v, PuertoTcp).Nulo?
      case Tcp =>
        Get(v, Puerto).Nulo? && Get(v, Baudrate).Nulo? && Get(v, Paridad).Nulo? && Get(v, Bits).Nulo? && Get(v, StopBits).Nulo?
  {
    CamposPorTransporte();
  }

  /** Field by field: over a serial line nothing of the network may be set and every field has a
      default; over the network nothing serial may be set, the host has to be, and the port has a
      default. */
  lemma NormalizarDice(t: Transporte, v: Valores)
    ensures Normalizar(t, v).Ok? <==>
      match t
      case Rtu => Get(v, Host).Nulo? && Get(v, PuertoTcp).Nulo?
      case Tcp =>
        && Get(v, Puerto).Nulo? && Get(v, Baudrate).Nulo? && Get(v, Paridad).Nulo? && Get(v, Bits).Nulo? && Get(v, StopBits).Nulo?
        && !Get(v, Host).Nulo?
    ensures Normalizar(t, v).Err? ==> Normalizar(t, v).error == Validacion
    ensures Normalizar(t, v).Ok? ==>
      var r := Normalizar(t, v).value;
      if t.Rtu? then
        && Get(r, Puerto) == SiNulo(Get(v, Puerto), Texto("/dev/ttymxc1")) && Get(r, Baudrate) == SiNulo(Get(v, Baudrate), Entero(9600))
        && Get(r, Paridad) == SiNulo(Get(v, Paridad), Texto("N")) && Get(r, Bits) == SiNulo(Get(v, Bits), Entero(8))
        && Get(r, StopBits) == SiNulo(Get(v, StopBits), Entero(1)) && Get(r, Host) == Nulo && Get(r, PuertoTcp) == Nulo
      else
        && Get(r, Host) == Get(v, Host) && Get(r, PuertoTcp) == SiNulo(Get(v, PuertoTcp), Entero(502))
        && Get(r, Puerto) == Nulo && Get(r, Baudrate) == Nulo && Get(r, Paridad) == Nulo && Get(r, Bits) == Nulo && Get(r, StopBits) == Nulo
  {
    SinAjenosSii(t, v);
    if t.Rtu? { CompletaRtu(v); } else { CompletaTcp(v); }
  }

  lemma CamposPorTransporte()
    ensures forall n: Campo ::
      && (n in Propios(Rtu) <==> n in Ajenos(Tcp)) && (n in Propios(Tcp) <==> n in Ajenos(Rtu))
      && (n in Propios(Rtu) <==> n == Puerto || n == Baudrate || n == Paridad || n == Bits || n == StopBits)
      && (n in Propios(Tcp) <==> n == Host || n == PuertoTcp)
  {
    assert RTU_FIELDS == [Puerto, Baudrate, Paridad, Bits, StopBits] && TCP_FIELDS == [Host, PuertoTcp];
  }

  // --- the table ------------------------------------------------------------

  datatype Equipo = Equipo(gateway: nat, transporte: Transporte, modbusId: int, campos: Valores)

  type Tabla = map<nat, Equipo>

  predicate ModbusIdValido(n: int) { 1 <= n <= 247 }

  function Columnas(v: Valores): Valores { map n | n in CAMPOS :: Get(v, n) }

  /** What identifies a device on its bus: a port for RTU, a host and port for TCP. */
  predicate MismaDireccion(t: Transporte, modbusId: int, v: Valores, e: Equipo) {
    && e.transporte == t && e.modbusId == modbusId
    && (t.Rtu? ==> Get(e.campos, Puerto) == Get(v, Puerto))
    && (t.Tcp? ==> Get(e.campos, Host) == Get(v, Host) && Get(e.campos, PuertoTcp) == Get(v, PuertoTcp))
  }

  /** `address_taken`. */
  predicate AddressTaken(tabla: Tabla, gateway: nat, t: Transporte, modbusId: int, v: Valores, excluding: Option<nat>) {
    exists id :: id in tabla && tabla[id].gateway == gateway && MismaDireccion(t, modbusId, v, tabla[id]) && excluding != Some(id)
  }

  /** No other device of the gateway, on the same transport, has that unit id with the same serial
      port or the same host and port. */
  predicate DireccionLibre(tabla: Tabla, gateway: nat, t: Transporte, modbusId: int, v: Valores, propia: Option<nat>) {
    forall k :: k in tabla && propia != Some(k) && tabla[k].gateway == gateway && tabla[k].transporte == t && tabla[k].modbusId == modbusId ==>
      if t.Rtu? then Get(tabla[k].campos, Puerto) != Get(v, Puerto)
      else Get(tabla[k].campos, Host) != Get(v, Host) || Get(tabla[k].campos, PuertoTcp) != Get(v, PuertoTcp)
  }

  lemma LibreSii(tabla: Tabla, gateway: nat, t: Transporte, modbusId: int, v: Valores, propia: Option<nat>)
    ensures DireccionLibre(tabla, gateway, t, modbusId, v, propia) <==> !AddressTaken(tabla, gateway, t, modbusId, v, propia)
  {
    forall k | k in tabla && propia != Some(k) && tabla[k].gateway == gateway
      ensures MismaDireccion(t, modbusId, v, tabla[k]) <==>
        && tabla[k].transporte == t && tabla[k].modbusId == modbusId
        && if t.Rtu? then Get(tabla[k].campos, Puerto) == Get(v, Puerto)
           else Get(tabla[k].campos, Host) == Get(v, Host) && Get(tabla[k].campos, PuertoTcp) == Get(v, PuertoTcp)
    {}
  }

  /** A key of a PATCH: not sent, sent as null, or sent with a value. */
  datatype Parche<T> = Ausente | Nula | Puesto(valor: T)

  datatype Cambios = Cambios(transporte: Parche<Transporte>, modbusId: Parche<int>, campos: Valores)

  function TransporteTras(e: Equipo, c: Cambios): Transporte {
    if c.transporte.Puesto? then c.transporte.valor else e.transporte
  }

  /** The row with the patch over it; switching transport clears what the patch does not set. */
  function Mezcla(e: Equipo, c: Cambios): Valores {
    var merged := e.campos + c.campos;
    if TransporteTras(e, c) != e.transporte then
      map n | n in merged.Keys + (set k | k in CAMPOS) :: if n in CAMPOS && n !in c.campos then Nulo else Get(merged, n)
    else merged
  }

  function Crear(tabla: Tabla, escribe: bool, existe: bool, gateway: nat, id: nat, t: Transporte, modbusId: int, campos: Valores)
    : (Tabla, Result<nat, Error>)
  {
    if !ModbusIdValido(modbusId) then (tabla, Err(Validacion)) else
    match Normalizar(t, campos)
    case Err(e) => (tabla, Err(e))
    case Ok(v) =>
      if !escribe then (tabla, Err(NoAutorizado))
      else if !existe then (tabla, Err(NoEncontrado))
      else if AddressTaken(tabla, gateway, t, modbusId, v, None) then (tabla, Err(YaExiste))
      else if id in tabla then (tabla, Err(Interno))
      else (tabla[id := Equipo(gateway, t, modbusId, Columnas(v))], Ok(id))
  }

  function Actualizar(tabla: Tabla, escribe: bool, id: nat, c: Cambios): (r: (Tabla, Result<(), Error>))
    ensures r.1.Ok? ==> id in tabla && id in r.0
  {
    if c.modbusId.Puesto? && !ModbusIdValido(c.modbusId.valor) then (tabla, Err(Validacion))
    else if !escribe then (tabla, Err(NoAutorizado))
    else if id !in tabla then (tabla, Err(NoEncontrado))
    else if c.transporte.Nula? then (tabla, Err(Interno))
    else
      var e := tabla[id];
      var t := TransporteTras(e, c);
      match Normalizar(t, Mezcla(e, c))
      case Err(err) => (tabla, Err(err))
      case Ok(v) =>
        if c.modbusId.Nula? then (tabla, Err(Interno)) else
        var modbusId := if c.modbusId.Puesto? then c.modbusId.valor else e.modbusId;
        if AddressTaken(tabla, e.gateway, t, modbusId, v, Some(id)) then (tabla, Err(YaExiste))
        else (tabla[id := Equipo(e.gateway, t, modbusId, Columnas(v))], Ok(()))
  }

  function Borrar(tabla: Tabla, escribe: bool, id: nat): (Tabla, Result<(), Error>) {
    if !escribe then (tabla, Err(NoAutorizado))
    else if id !in tabla then (tabla, Err(NoEncontrado))
    else (tabla - {id}, Ok(()))
  }

  /** Clearing the fields one by one is clearing them all. */
  lemma MezclaLimpia(e: Equipo, c: Cambios, merged: Valores)
    requires TransporteTras(e, c) != e.transporte
    requires forall n: Campo ::
      && (n in merged <==> n in e.campos + c.campos || (n in CAMPOS[..|CAMPOS|] && n !in c.campos))
      && Get(merged, n) == if n in CAMPOS[..|CAMPOS|] && n !in c.campos then Nulo else Get(e.campos + c.campos, n)
    ensures merged == Mezcla(e, c)
  {
    assert CAMPOS[..|CAMPOS|] == CAMPOS;
    IgualesPorClave(merged, Mezcla(e, c));
  }

  class EquipmentService {
    var tabla: Tabla

    constructor ()
      ensures tabla == map[]
    {
      tabla := map[];
    }

    method Create(escribe: bool, existe: bool, gateway: nat, id: nat, t: Transporte, modbusId: int, campos: Valores)
      returns (r: Result<nat, Error>)
      modifies this
      ensures (tabla, r) == Crear(old(tabla), escribe, existe, gateway, id, t, modbusId, campos)
    {
      if !ModbusIdValido(modbusId) { return Err(Validacion); }
      var normal := NormalizeTransportFields(t, campos);
      if normal.Err? { return Err(normal.error); }
      if !escribe { return Err(NoAutorizado); }
      if !existe { return Err(NoEncontrado); }
      if AddressTaken(tabla, gateway, t, modbusId, normal.value, None) { return Err(YaExiste); }
      if id in tabla { return Err(Interno); }
      tabla := tabla[id := Equipo(gateway, t, modbusId, Columnas(normal.value))];
      r := Ok(id);
    }

    /** The dictionary `update` builds: the row, the patch over it, and the old transport's fields
        cleared one by one when the transport changes. */
    method Mezclar(e: Equipo, c: Cambios) returns (merged: Valores)
      ensures merged == Mezcla(e, c)
    {
      merged := e.campos + c.campos;
      ghost var base := merged;
      if c.transporte.Puesto? && c.transporte.valor != e.transporte {
        for i := 0 to |CAMPOS|
          invariant forall n: Campo ::
            && (n in merged <==> n in base || (n in CAMPOS[..i] && n !in c.campos))
            && Get(merged, n) == if n in CAMPOS[..i] && n !in c.campos then Nulo else Get(base, n)
        {
          if CAMPOS[i] !in c.campos { merged := merged[CAMPOS[i] := Nulo]; }
        }
        MezclaLimpia(e, c, merged);
      }
    }

    method Update(escribe: bool, id: nat, c: Cambios) returns (r: Result<(), Error>)
      modifies this
      ensures (tabla, r) == Actualizar(old(tabla), escribe, id, c)
    {
      if c.modbusId.Puesto? && !ModbusIdValido(c.modbusId.valor) { return Err(Validacion); }
      if !escribe { return Err(NoAutorizado); }
      if id !in tabla { return Err(NoEncontrado); }
      if c.transporte.Nula? { return Err(Interno); }
      var equipment := tabla[id];
      var t := TransporteTras(equipment, c);
      var merged := Mezclar(equipment, c);
      var normal := NormalizeTransportFields(t, merged);
      if normal.Err? { return Err(normal.error); }
      if c.modbusId.Nula? { return Err(Interno); }
      var modbusId := if c.modbusId.Puesto? then c.modbusId.valor else equipment.modbusId;
      if AddressTaken(tabla, equipment.gateway, t, modbusId, normal.value, Some(id)) { return Err(YaExiste); }
      tabla := tabla[id := Equipo(equipment.gateway, t, modbusId, Columnas(normal.value))];
      r := Ok(());
    }

    method Delete(escribe: bool, id: nat) returns (r: Result<(), Error>)
      modifies this
      ensures (tabla, r) == Borrar(old(tabla), escribe, id)
    {
      if !escribe { return Err(NoAutorizado); }
      if id !in tabla { return Err(NoEncontrado); }
      tabla := tabla - {id};
      r := Ok(());
    }
  }

  // --- what every sequence of requests keeps --------------------------------

  ghost predicate FilaSana(e: Equipo) {
    PuntoFijo(e.transporte, e.campos) && Coherente(e.transporte, e.campos) && ModbusIdValido(e.modbusId)
  }

  ghost predicate TablaSana(tabla: Tabla) {
    && (forall id :: id in tabla ==> FilaSana(tabla[id]))
    && (forall id :: id in tabla ==>
          DireccionLibre(tabla, tabla[id].gateway, tabla[id].transporte, tabla[id].modbusId, tabla[id].campos, Some(id)))
  }

  lemma ColumnasDe(t: Transporte, v: Valores)
    requires Normalizar(t, v).Ok?
    ensures var w := Columnas(Normalizar(t, v).value);
      PuntoFijo(t, w) && Coherente(t, w) && forall n :: n in CAMPOS ==> Get(w, n) == Get(Normalizar(t, v).value, n)
  {
    var u := Normalizar(t, v).value;
    var w := Columnas(u);
    NormalizarEstabiliza(t, v);
    PuntoFijoSii(t, u);
    PuntoFijoSii(t, w);
    forall n
      ensures n in CAMPOS <==> n in Propios(t) || n in Ajenos(t)
      ensures n in w <==> n in CAMPOS
      ensures n in w ==> w[n] == Get(u, n)
    {
      CamposDe(t, n);
    }
    DefaultsDe(t);
    assert Puerto in CAMPOS && Baudrate in CAMPOS && Host in CAMPOS && PuertoTcp in CAMPOS by { NombresEnCampos(); }
    assert Requerido(t) in Propios(t);
  }

  lemma NombresEnCampos()
    ensures Puerto in CAMPOS && Baudrate in CAMPOS && Host in CAMPOS && PuertoTcp in CAMPOS
  {
    assert CAMPOS[0] == Puerto && CAMPOS[1] == Baudrate && CAMPOS[5] == Host && CAMPOS[6] == PuertoTcp;
  }

  lemma DireccionDeColumnas(t: Transporte, modbusId: int, v: Valores, gateway: nat, e: Equipo)
    ensures MismaDireccion(t, modbusId, Columnas(v), e) == MismaDireccion(t, modbusId, v, e)
    ensures MismaDireccion(e.transporte, e.modbusId, e.campos, Equipo(gateway, t, modbusId, Columnas(v)))
         == MismaDireccion(t, modbusId, v, e)
  {
    NombresEnCampos();
  }

  // --- when a request is accepted -------------------------------------------

  /** A create is accepted exactly when the caller may write, the gateway exists, the unit id is one,
      the fields normalise, their address is free and the key is new; then it adds that row and no other changes. */
  lemma CrearSii(tabla: Tabla, escribe: bool, existe: bool, gateway: nat, id: nat, t: Transporte, modbusId: int, campos: Valores)
    ensures var (d, r) := Crear(tabla, escribe, existe, gateway, id, t, modbusId, campos);
      && (r.Ok? <==>
            && escribe && existe && 1 <= modbusId <= 247 && Normalizar(t, campos).Ok? && id !in tabla
            && DireccionLibre(tabla, gateway, t, modbusId, Normalizar(t, campos).value, None))
      && (r.Err? ==>
            && d == tabla
            && r.error == if !(1 <= modbusId <= 247) || Normalizar(t, campos).Err? then Validacion
                          else if !escribe then NoAutorizado
                          else if !existe then NoEncontrado
                          else if !DireccionLibre(tabla, gateway, t, modbusId, Normalizar(t, campos).value, None) then YaExiste else Interno)
      && (r.Ok? ==> r.value == id && id in d && d == tabla[id := d[id]] && EsFila(d[id], gateway, t, modbusId, Normalizar(t, campos).value))
  {
    if Normalizar(t, campos).Ok? {
      LibreSii(tabla, gateway, t, modbusId, Normalizar(t, campos).value, None);
      ColumnasSonLosCampos(Normalizar(t, campos).value);
    } else {
      NormalizarDice(t, campos);
    }
  }

  /** The row of that device: its keys, and every field as in `v`. */
  ghost predicate EsFila(e: Equipo, gateway: nat, t: Transporte, modbusId: int, v: Valores) {
    e.gateway == gateway && e.transporte == t && e.modbusId == modbusId && forall n: Campo :: Get(e.campos, n) == Get(v, n)
  }

  lemma ColumnasSonLosCampos(v: Valores)
    ensures forall n: Campo :: n in Columnas(v) && Columnas(v)[n] == Get(v, n)
  {
    forall n: Campo
      ensures n in CAMPOS
    {
      TodosSonCampos(n);
    }
  }

  /** What the patched row holds before it is completed: what the patch sets; of the rest, nothing if
      the transport changes, and what was there if not. */
  lemma MezclaDice(e: Equipo, c: Cambios, n: Campo)
    ensures Get(Mezcla(e, c), n) ==
      if n in c.campos then c.campos[n]
      else if c.transporte.Puesto? && c.transporte.valor != e.transporte then Nulo
      else Get(e.campos, n)
  {
    TodosSonCampos(n);
  }

  /** A patch is accepted exactly when the caller may write, the device exists, neither transport nor
      unit id is sent as null, a unit id sent is one, the patched fields normalise, and no other
      device has their address; then it rewrites that row, on the same gateway, and no other. */
  lemma ActualizarSii(tabla: Tabla, escribe: bool, id: nat, c: Cambios)
    requires id in tabla
    ensures var (d, r) := Actualizar(tabla, escribe, id, c);
      var e := tabla[id];
      var t := if c.transporte.Puesto? then c.transporte.valor else e.transporte;
      var modbusId := if c.modbusId.Puesto? then c.modbusId.valor else e.modbusId;
      var vale := escribe && !c.transporte.Nula? && !c.modbusId.Nula? && (c.modbusId.Puesto? ==> 1 <= modbusId <= 247)
        && Normalizar(t, Mezcla(e, c)).Ok?;
      && (r.Ok? <==> vale && DireccionLibre(tabla, e.gateway, t, modbusId, Normalizar(t, Mezcla(e, c)).value, Some(id)))
      && (r.Err? ==>
            && d == tabla
            && r.error == if c.modbusId.Puesto? && !(1 <= modbusId <= 247) then Validacion
                          else if !escribe then NoAutorizado
                          else if c.transporte.Nula? then Interno
                          else if Normalizar(t, Mezcla(e, c)).Err? then Validacion
                          else if c.modbusId.Nula? then Interno else YaExiste)
      && (r.Ok? ==> id in d && d == tabla[id := d[id]] && EsFila(d[id], e.gateway, t, modbusId, Normalizar(t, Mezcla(e, c)).value))
  {
    var e, t := tabla[id], TransporteTras(tabla[id], c);
    if Normalizar(t, Mezcla(e, c)).Ok? {
      var v := Normalizar(t, Mezcla(e, c)).value;
      LibreSii(tabla, e.gateway, t, ModbusTras(e, c), v, Some(id));
      ColumnasSonLosCampos(v);
    } else {
      NormalizarDice(t, Mezcla(e, c));
    }
  }

  lemma ActualizarSinFila(tabla: Tabla, escribe: bool, id: nat, c: Cambios)
    requires id !in tabla
    ensures Actualizar(tabla, escribe, id, c) ==
      (tabla, Err(if c.modbusId.Puesto? && !(1 <= c.modbusId.valor <= 247) then Validacion else if escribe then NoEncontrado else NoAutorizado))
  {}

  /** A device does not stand in its own way: on a sound table a patch that sets nothing is accepted
      and changes nothing. */
  lemma ParcheVacio(tabla: Tabla, id: nat)
    requires TablaSana(tabla) && id in tabla
    ensures Actualizar(tabla, true, id, Cambios(Ausente, Ausente, map[])) == (tabla, Ok(()))
  {
    var c, e := Cambios(Ausente, Ausente, map[]), tabla[id];
    SinParche(e);
    assert FilaSana(e);
    ColumnasDeSana(e);
    LibreSii(tabla, e.gateway, e.transporte, e.modbusId, e.campos, Some(id));
    assert tabla[id := e] == tabla;
  }

  lemma SinParche(e: Equipo)
    ensures Mezcla(e, Cambios(Ausente, Ausente, map[])) == e.campos
  {
    assert e.campos + map[] == e.campos;
  }

  lemma ColumnasDeSana(e: Equipo)
    requires FilaSana(e)
    ensures Columnas(e.campos) == e.campos
  {
    ColumnasSonLosCampos(e.campos);
    PuntoFijoSii(e.transporte, e.campos);
    forall n: Campo
      ensures n in Columnas(e.campos) && n in e.campos && Columnas(e.campos)[n] == e.campos[n]
    {
      TodosSonCampos(n);
    }
  }

  /** A delete is accepted exactly when the caller may write and the device exists. */
  lemma BorrarSii(tabla: Tabla, escribe: bool, id: nat)
    ensures var (d, r) := Borrar(tabla, escribe, id);
      && (r.Ok? <==> escribe && id in tabla) && (r.Err? ==> r.error == if escribe then NoEncontrado else NoAutorizado)
      && d.Keys == (if r.Ok? then tabla.Keys - {id} else tabla.Keys) && forall k :: k in d ==> d[k] == tabla[k]
  {}

  lemma PonerSana(tabla: Tabla, id: nat, e: Equipo)
    requires TablaSana(tabla) && FilaSana(e)
    requires forall k :: k in tabla && k != id && tabla[k].gateway == e.gateway ==>
      && !MismaDireccion(e.transporte, e.modbusId, e.campos, tabla[k])
      && !MismaDireccion(tabla[k].transporte, tabla[k].modbusId, tabla[k].campos, e)
    ensures TablaSana(tabla[id := e])
  {}

  /** Writing one row that is sound, at an address no other row of its gateway has. */
  lemma PonerFila(tabla: Tabla, id: nat, gateway: nat, t: Transporte, modbusId: int, v: Valores)
    requires TablaSana(tabla) && ModbusIdValido(modbusId) && Normalizar(t, v).Ok?
    requires !AddressTaken(tabla, gateway, t, modbusId, Normalizar(t, v).value, Some(id))
    ensures TablaSana(tabla[id := Equipo(gateway, t, modbusId, Columnas(Normalizar(t, v).value))])
  {
    var u := Normalizar(t, v).value;
    var e := Equipo(gateway, t, modbusId, Columnas(u));
    assert FilaSana(e) by { ColumnasDe(t, v); }
    forall k | k in tabla && k != id && tabla[k].gateway == gateway
      ensures !MismaDireccion(t, modbusId, e.campos, tabla[k])
      ensures !MismaDireccion(tabla[k].transporte, tabla[k].modbusId, tabla[k].campos, e)
    {
      DireccionDeColumnas(t, modbusId, u, gateway, tabla[k]);
    }
    PonerSana(tabla, id, e);
  }

  lemma CrearConserva(tabla: Tabla, escribe: bool, existe: bool, gateway: nat, id: nat, t: Transporte, modbusId: int, campos: Valores)
    requires TablaSana(tabla)
    ensures TablaSana(Crear(tabla, escribe, existe, gateway, id, t, modbusId, campos).0)
  {
    var (despues, r) := Crear(tabla, escribe, existe, gateway, id, t, modbusId, campos);
    if r.Ok? {
      assert !AddressTaken(tabla, gateway, t, modbusId, Normalizar(t, campos).value, Some(id));
      PonerFila(tabla, id, gateway, t, modbusId, campos);
    }
  }

  function ModbusTras(e: Equipo, c: Cambios): int { if c.modbusId.Puesto? then c.modbusId.valor else e.modbusId }

  /** What an accepted patch has passed, and the row it writes. */
  lemma ParcheAceptado(tabla: Tabla, escribe: bool, id: nat, c: Cambios)
    requires Actualizar(tabla, escribe, id, c).1.Ok?
    ensures id in tabla && (c.modbusId.Puesto? ==> ModbusIdValido(c.modbusId.valor))
    ensures var e := tabla[id];
      var t := TransporteTras(e, c);
      && Normalizar(t, Mezcla(e, c)).Ok?
      && !AddressTaken(tabla, e.gateway, t, ModbusTras(e, c), Normalizar(t, Mezcla(e, c)).value, Some(id))
      && Actualizar(tabla, escribe, id, c).0 ==
           tabla[id := Equipo(e.gateway, t, ModbusTras(e, c), Columnas(Normalizar(t, Mezcla(e, c)).value))]
  {}

  lemma ActualizarConserva(tabla: Tabla, escribe: bool, id: nat, c: Cambios)
    requires TablaSana(tabla)
    ensures TablaSana(Actualizar(tabla, escribe, id, c).0)
  {
    if Actualizar(tabla, escribe, id, c).1.Ok? {
      ParcheAceptado(tabla, escribe, id, c);
      var e := tabla[id];
      assert ModbusIdValido(ModbusTras(e, c)) by { assert FilaSana(e); }
      PonerFila(tabla, id, e.gateway, TransporteTras(e, c), ModbusTras(e, c), Mezcla(e, c));
    }
  }

  datatype Pedido =
    | PideCrear(escribe: bool, existe: bool, gateway: nat, id: nat, t: Transporte, modbusId: int, campos: Valores)
    | PideActualizar(escribe: bool, id: nat, c: Cambios)
    | PideBorrar(escribe: bool, id: nat)

  function Tras(ps: seq<Pedido>): Tabla {
    if ps == [] then map[]
    else
      var tabla, p := Tras(ps[..|ps| - 1]), ps[|ps| - 1];
      match p
      case PideCrear(escribe, existe, gateway, id, t, modbusId, campos) => Crear(tabla, escribe, existe, gateway, id, t, modbusId, campos).0
      case PideActualizar(escribe, id, c) => Actualizar(tabla, escribe, id, c).0
      case PideBorrar(escribe, id) => Borrar(tabla, escribe, id).0
  }

  /** After any sequence of creates, patches and deletes, every row is a fixed point of the
      normalisation and coherent, and no two devices of a gateway answer at the same address. */
  lemma {:induction false} SiempreSana(ps: seq<Pedido>)
    ensures TablaSana(Tras(ps))
  {
    if ps != [] {
      var n := |ps| - 1;
      SiempreSana(ps[..n]);
      var tabla := Tras(ps[..n]);
      match ps[n]
      case PideCrear(escribe, existe, gateway, id, t, modbusId, campos) => CrearConserva(tabla, escribe, existe, gateway, id, t, modbusId, campos);
      case PideActualizar(escribe, id, c) => ActualizarConserva(tabla, escribe, id, c);
      case PideBorrar(_, _) =>
    }
  }

  /** A patch that switches the transport leaves nothing of the old one: each field is what the
      patch sets, or else the default of the new transport. */
  lemma CambioDeTransporteLimpia(tabla: Tabla, escribe: bool, id: nat, c: Cambios, n: Campo)
    requires Actualizar(tabla, escribe, id, c).1.Ok? && TransporteTras(tabla[id], c) != tabla[id].transporte
    requires n in CAMPOS
    ensures var e := Actualizar(tabla, escribe, id, c).0[id];
      && e.transporte == c.transporte.valor
      && Get(e.campos, n) ==
           if n in Ajenos(e.transporte) then Nulo
           else if Get(c.campos, n).Nulo? then PorDefecto(e.transporte, n) else c.campos[n]
  {
    var e := tabla[id];
    var t := TransporteTras(e, c);
    CompletoEs(t, Mezcla(e, c), n);
    CamposDe(t, n);
    DefaultsDe(t);
    assert n in Mezcla(e, c) && Mezcla(e, c)[n] == if n in c.campos then c.campos[n] else Nulo;
  }

  lemma MezclaConserva(e: Equipo, c: Cambios, n: Campo)
    requires PuntoFijo(e.transporte, e.campos) && TransporteTras(e, c) == e.transporte && n in CAMPOS
    ensures Get(Completo(e.transporte, Mezcla(e, c)), n) ==
      if n !in c.campos then Get(e.campos, n)
      else if n in Propios(e.transporte) && c.campos[n].Nulo? then PorDefecto(e.transporte, n) else c.campos[n]
  {
    var v := Mezcla(e, c);
    assert Get(v, n) == if n in c.campos then c.campos[n] else Get(e.campos, n);
    CompletoEs(e.transporte, v, n);
    CompletoEs(e.transporte, e.campos, n);
  }

  /** A patch that keeps the transport keeps, of its fields, the ones it does not set. */
  lemma ParcheConserva(tabla: Tabla, escribe: bool, id: nat, c: Cambios, n: Campo)
    requires id in tabla && PuntoFijo(tabla[id].transporte, tabla[id].campos)
    requires Actualizar(tabla, escribe, id, c).1.Ok?
    requires TransporteTras(tabla[id], c) == tabla[id].transporte && n in CAMPOS
    ensures Actualizar(tabla, escribe, id, c).0[id].transporte == tabla[id].transporte
    ensures Get(Actualizar(tabla, escribe, id, c).0[id].campos, n) ==
      if n !in c.campos then Get(tabla[id].campos, n)
      else if n in Propios(tabla[id].transporte) && c.campos[n].Nulo? then PorDefecto(tabla[id].transporte, n) else c.campos[n]
  {
    ParcheAceptado(tabla, escribe, id, c);
    MezclaConserva(tabla[id], c, n);
  }
}
