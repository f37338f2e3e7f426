/** The settings the fleet shares, with the secret ones encrypted at rest
    (app/services/platform_settings.py). */
module Ajustes {
  import opened Wrappers

  datatype Origen = Plataforma | Equipo | Identidad

  datatype Ajuste = Ajuste(valor: string, esSecreto: bool, origen: Origen, descripcion: string)

  type Tabla = map<string, Ajuste>

  /** Encryption under the environment's key, if there is one. Each use draws its own nonce. */
  datatype Caja = Caja(configurada: bool, cifra: (string, string) -> string, descifra: string -> Option<string>)

  ghost predicate Confiable(caja: Caja) {
    forall claro: string, nonce: string ::
      caja.cifra(claro, nonce) != "" && caja.descifra(caja.cifra(claro, nonce)) == Some(claro)
  }

  function Cifrar(caja: Caja, claro: string, nonce: string): Result<string, Error> {
    if caja.configurada then Ok(caja.cifra(claro, nonce)) else Err(ReglaDeNegocio)
  }

  function Descifrar(caja: Caja, cifrado: string): Result<string, Error> {
    if !caja.configurada || caja.descifra(cifrado).None? then Err(ReglaDeNegocio)
    else Ok(caja.descifra(cifrado).value)
  }

  /** `_store`. */
  function Guardar(caja: Caja, valor: string, esSecreto: bool, nonce: string): Result<string, Error> {
    if !esSecreto || valor == "" then Ok(valor) else Cifrar(caja, valor, nonce)
  }

  /** The value behind a row, as `reveal` reads it. */
  function EnClaro(caja: Caja, a: Ajuste): Result<string, Error> {
    if !a.esSecreto then Ok(a.valor)
    else if a.valor == "" then Ok("")
    else Descifrar(caja, a.valor)
  }

  function Revelar(tabla: Tabla, caja: Caja, admin: bool, clave: string): Result<string, Error> {
    if !admin then Err(NoAutorizado)
    else if clave !in tabla then Err(NoEncontrado)
    else EnClaro(caja, tabla[clave])
  }

  /** `_valor_en_claro`: what a device receives. Its own variables travel empty. */
  function ValorEnClaro(caja: Caja, a: Ajuste): Result<string, Error> {
    if a.origen.Equipo? then Ok("")
    else if a.esSecreto && a.valor != "" then Descifrar(caja, a.valor)
    else Ok(a.valor)
  }

  /** One variable of a device's environment. */
  datatype EnvEntry = EnvEntry(clave: string, valor: string, origen: Origen)

  /** The keys of the table in the order they are listed, each once. */
  predicate Listado(tabla: Tabla, claves: seq<string>) {
    && (forall k :: k in claves ==> k in tabla) && (forall k :: k in tabla ==> k in claves)
    && (forall i, j :: 0 <= i < j < |claves| ==> claves[i] != claves[j])
  }

  /** `para_un_gateway`: every row of the list, in the clear. One that cannot be read fails them all. */
  function ParaUnGateway(tabla: Tabla, caja: Caja, claves: seq<string>): (r: Result<seq<EnvEntry>, Error>)
    requires forall k :: k in claves ==> k in tabla
    ensures r.Ok? <==> forall k :: k in claves ==> ValorEnClaro(caja, tabla[k]).Ok?
    ensures r.Ok? ==> |r.value| == |claves| && forall i :: 0 <= i < |claves| ==>
      Ok(r.value[i].valor) == ValorEnClaro(caja, tabla[claves[i]])
      && r.value[i].clave == claves[i] && r.value[i].origen == tabla[claves[i]].origen
    ensures r.Err? ==> r.error == ReglaDeNegocio
  {
    if claves == [] then Ok([])
    else
      var n := |claves| - 1;
      assert claves == claves[..n] + [claves[n]];
      var previas :- ParaUnGateway(tabla, caja, claves[..n]);
      var valor :- ValorEnClaro(caja, tabla[claves[n]]);
      Ok(previas + [EnvEntry(claves[n], valor, tabla[claves[n]].origen)])
  }

  /** `valor_publico`: secrets are not read this way. */
  function ValorPublico(tabla: Tabla, clave: string): Result<string, Error> {
    if clave !in tabla then Err(NoEncontrado)
    else if tabla[clave].esSecreto then Err(ReglaDeNegocio)
    else Ok(tabla[clave].valor)
  }

  function Crear(tabla: Tabla, caja: Caja, admin: bool, clave: string, valor: string, esSecreto: bool, descripcion: string, nonce: string)
    : (Tabla, Result<(), Error>)
  {
    if !admin then (tabla, Err(NoAutorizado))
    else if clave in tabla then (tabla, Err(YaExiste))
    else match Guardar(caja, valor, esSecreto, nonce)
      case Err(e) => (tabla, Err(e))
      case Ok(guardado) => (tabla[clave := Ajuste(guardado, esSecreto, Plataforma, descripcion)], Ok(()))
  }

  /** The column after an update: rewritten when a value comes, or when only the secrecy changes. */
  function ValorTras(caja: Caja, a: Ajuste, valor: Option<string>, esSecreto: bool, nonce: string): Result<string, Error> {
    match valor
    case Some(nuevo) => Guardar(caja, nuevo, esSecreto, nonce)
    case None =>
      if esSecreto == a.esSecreto || a.valor == "" then Ok(a.valor)
      else
        var actual :- if a.esSecreto then Descifrar(caja, a.valor) else Ok(a.valor);
        Guardar(caja, actual, esSecreto, nonce)
  }

  function Actualizar(tabla: Tabla, caja: Caja, admin: bool, clave: string, valor: Option<string>, secreto: Option<bool>,
                      descripcion: Option<string>, nonce: string): (Tabla, Result<(), Error>)
  {
    if !admin then (tabla, Err(NoAutorizado))
    else if clave !in tabla then (tabla, Err(NoEncontrado))
    else if !tabla[clave].origen.Plataforma? then (tabla, Err(ReglaDeNegocio))
    else
      var a := tabla[clave];
      var esSecreto := if secreto.Some? then secreto.value else a.esSecreto;
      match ValorTras(caja, a, valor, esSecreto, nonce)
      case Err(e) => (tabla, Err(e))
      case Ok(guardado) =>
        (tabla[clave := Ajuste(guardado, esSecreto, a.origen, if descripcion.Some? then descripcion.value else a.descripcion)], Ok(()))
  }

  function Borrar(tabla: Tabla, admin: bool, clave: string): (Tabla, Result<(), Error>) {
    if !admin then (tabla, Err(NoAutorizado))
    else if clave !in tabla then (tabla, Err(NoEncontrado))
    else if !tabla[clave].origen.Plataforma? then (tabla, Err(ReglaDeNegocio))
    else (tabla - {clave}, Ok(()))
  }

  class PlatformSettingService {
    const caja: Caja
    var tabla: Tabla

    constructor (caja: Caja, sembradas: Tabla)
      ensures this.caja == caja && tabla == sembradas
    {
      this.caja, tabla := caja, sembradas;
    }

    method Create(admin: bool, clave: string, valor: string, esSecreto: bool, descripcion: string, nonce: string)
      returns (r: Result<(), Error>)
      modifies this
      ensures (tabla, r) == Crear(old(tabla), caja, admin, clave, valor, esSecreto, descripcion, nonce)
    {
      if !admin { return Err(NoAutorizado); }
      if clave in tabla { return Err(YaExiste); }
      var guardado := Guardar(caja, valor, esSecreto, nonce);
      if guardado.Err? { return Err(guardado.error); }
      tabla := tabla[clave := Ajuste(guardado.value, esSecreto, Plataforma, descripcion)];
      r := Ok(());
    }

    /** `cambios` starts empty and gets the keys that change; here, a row that starts as it was. */
    method Update(admin: bool, clave: string, valor: Option<string>, secreto: Option<bool>, descripcion: Option<string>, nonce: string)
      returns (r: Result<(), Error>)
      modifies this
      ensures (tabla, r) == Actualizar(old(tabla), caja, admin, clave, valor, secreto, descripcion, nonce)
    {
      if !admin { return Err(NoAutorizado); }
      if clave !in tabla { return Err(NoEncontrado); }
      var setting := tabla[clave];
      if !setting.origen.Plataforma? { return Err(ReglaDeNegocio); }
      var esSecreto := if secreto.Some? then secreto.value else setting.esSecreto;
      var cambiada := setting;
      if valor.Some? {
        var guardado := Guardar(caja, valor.value, esSecreto, nonce);
        if guardado.Err? { return Err(guardado.error); }
        cambiada := cambiada.(valor := guardado.value);
      } else if esSecreto != setting.esSecreto && setting.valor != "" {
        var actual := if setting.esSecreto then Descifrar(caja, setting.valor) else Ok(setting.valor);
        if actual.Err? { return Err(actual.error); }
        var guardado := Guardar(caja, actual.value, esSecreto, nonce);
        if guardado.Err? { return Err(guardado.error); }
        cambiada := cambiada.(valor := guardado.value);
      }
      if secreto.Some? { cambiada := cambiada.(esSecreto := esSecreto); }
      if descripcion.Some? { cambiada := cambiada.(descripcion := descripcion.value); }
      tabla := tabla[clave := cambiada];
      r := Ok(());
    }

    method Delete(admin: bool, clave: string) returns (r: Result<(), Error>)
      modifies this
      ensures (tabla, r) == Borrar(old(tabla), admin, clave)
    {
      if !admin { return Err(NoAutorizado); }
      if clave !in tabla { return Err(NoEncontrado); }
      if !tabla[clave].origen.Plataforma? { return Err(ReglaDeNegocio); }
      tabla := tabla - {clave};
      r := Ok(());
    }
  }

  // --- the table refines a plain map ----------------------------------------

  ghost predicate EsCifradoDe(caja: Caja, x: string, claro: string) { exists nonce: string :: x == caja.cifra(claro, nonce) }

  /** A setting in the clear: the text last written, whether secrecy was last asked for, where the
      value comes from and what it is for. */
  datatype Claro = Claro(texto: string, secreto: bool, origen: Origen, descripcion: string)

  type Mapa = map<string, Claro>

  /** The row stands for `claro`: secret exactly when secrecy was asked for, and then, unless the text
      is empty, encrypted; as it is otherwise. */
  ghost predicate Representa(caja: Caja, a: Ajuste, claro: Claro) {
    && a.esSecreto == claro.secreto && a.origen == claro.origen && a.descripcion == claro.descripcion
    && if claro.secreto && claro.texto != "" then caja.configurada && EsCifradoDe(caja, a.valor, claro.texto)
       else a.valor == claro.texto
  }

  /** `m` is the plain map behind the table. */
  ghost predicate Refina(tabla: Tabla, caja: Caja, m: Mapa) {
    tabla.Keys == m.Keys && forall k :: k in tabla ==> Representa(caja, tabla[k], m[k])
  }

  lemma RepresentaSeLee(caja: Caja, a: Ajuste, claro: Claro)
    requires Confiable(caja) && Representa(caja, a, claro)
    ensures EnClaro(caja, a) == Ok(claro.texto)
    ensures a.valor == "" <==> claro.texto == ""
    ensures ValorEnClaro(caja, a) == Ok(if claro.origen.Equipo? then "" else claro.texto)
  {}

  lemma GuardarRepresenta(caja: Caja, claro: Claro, a: Ajuste, nonce: string)
    requires Guardar(caja, claro.texto, claro.secreto, nonce) == Ok(a.valor)
    requires a.esSecreto == claro.secreto && a.origen == claro.origen && a.descripcion == claro.descripcion
    ensures Representa(caja, a, claro)
  {}

  datatype Pedido =
    | PideCrear(admin: bool, clave: string, valor: string, esSecreto: bool, descripcion: string, nonce: string)
    | PideActualizar(admin: bool, clave: string, nuevo: Option<string>, secreto: Option<bool>, texto: Option<string>, nonce: string)
    | PideBorrar(admin: bool, clave: string)

  function Paso(tabla: Tabla, caja: Caja, p: Pedido): (Tabla, Result<(), Error>) {
    match p
    case PideCrear(admin, clave, valor, esSecreto, descripcion, nonce) => Crear(tabla, caja, admin, clave, valor, esSecreto, descripcion, nonce)
    case PideActualizar(admin, clave, nuevo, secreto, texto, nonce) => Actualizar(tabla, caja, admin, clave, nuevo, secreto, texto, nonce)
    case PideBorrar(admin, clave) => Borrar(tabla, admin, clave)
  }

  function OPrevio<T>(nuevo: Option<T>, previo: T): T { if nuevo.Some? then nuevo.value else previo }

  /** What an accepted request does to a plain map. */
  function PasoPlano(m: Mapa, p: Pedido): Mapa {
    match p
    case PideCrear(_, clave, valor, esSecreto, descripcion, _) => m[clave := Claro(valor, esSecreto, Plataforma, descripcion)]
    case PideActualizar(_, clave, nuevo, secreto, texto, _) =>
      if clave !in m then m
      else
        var c := m[clave];
        m[clave := c.(texto := OPrevio(nuevo, c.texto), secreto := OPrevio(secreto, c.secreto), descripcion := OPrevio(texto, c.descripcion))]
    case PideBorrar(_, clave) => m - {clave}
  }

  /** What of the map a request asks to be kept secret: the text to write, if it is not empty. */
  predicate PideCifrar(m: Mapa, p: Pedido) {
    match p
    case PideCrear(_, _, valor, esSecreto, _, _) => esSecreto && valor != ""
    case PideActualizar(_, clave, nuevo, secreto, _, _) =>
      clave in m && OPrevio(secreto, m[clave].secreto) && OPrevio(nuevo, m[clave].texto) != ""
    case PideBorrar(_, _) => false
  }

  /** When a request is accepted: an administrator's, for a key that is free if it is to be created
      and otherwise there and edited from the panel; and what is to be kept secret needs the box. */
  predicate Procede(m: Mapa, caja: Caja, p: Pedido) {
    && (PideCifrar(m, p) ==> caja.configurada)
    && match p
       case PideCrear(admin, clave, _, _, _, _) => admin && clave !in m
       case PideActualizar(admin, clave, _, _, _, _) => admin && clave in m && m[clave].origen.Plataforma?
       case PideBorrar(admin, clave) => admin && clave in m && m[clave].origen.Plataforma?
  }

  /** Why a request is refused: first who asks, then the key, then where its value comes from or a box
      that is not there. */
  function Rechazo(m: Mapa, p: Pedido): Error {
    match p
    case PideCrear(admin, clave, _, _, _, _) => if !admin then NoAutorizado else if clave in m then YaExiste else ReglaDeNegocio
    case PideActualizar(admin, clave, _, _, _, _) => if !admin then NoAutorizado else if clave !in m then NoEncontrado else ReglaDeNegocio
    case PideBorrar(admin, clave) => if !admin then NoAutorizado else if clave !in m then NoEncontrado else ReglaDeNegocio
  }

  lemma CrearRefina(tabla: Tabla, caja: Caja, m: Mapa, p: Pedido)
    requires Confiable(caja) && Refina(tabla, caja, m) && p.PideCrear?
    ensures Paso(tabla, caja, p).1.Ok? <==> Procede(m, caja, p)
    ensures Paso(tabla, caja, p).1.Ok? ==> Refina(Paso(tabla, caja, p).0, caja, PasoPlano(m, p))
  {
    if Paso(tabla, caja, p).1.Ok? {
      GuardarRepresenta(caja, PasoPlano(m, p)[p.clave], Paso(tabla, caja, p).0[p.clave], p.nonce);
    }
  }

  lemma FilaActualizada(caja: Caja, a: Ajuste, c: Claro, nuevo: Option<string>, esSecreto: bool, nonce: string)
    requires Confiable(caja) && Representa(caja, a, c)
    ensures var r := ValorTras(caja, a, nuevo, esSecreto, nonce);
      && (r.Ok? <==> (esSecreto && OPrevio(nuevo, c.texto) != "" ==> caja.configurada))
      && (r.Ok? ==> Representa(caja, a.(valor := r.value, esSecreto := esSecreto), c.(texto := OPrevio(nuevo, c.texto), secreto := esSecreto)))
  {
    RepresentaSeLee(caja, a, c);
    var r := ValorTras(caja, a, nuevo, esSecreto, nonce);
    if r.Ok? && (nuevo.Some? || (esSecreto != a.esSecreto && a.valor != "")) {
      GuardarRepresenta(caja, c.(texto := OPrevio(nuevo, c.texto), secreto := esSecreto), a.(valor := r.value, esSecreto := esSecreto), nonce);
    }
  }

  lemma ActualizarRefina(tabla: Tabla, caja: Caja, m: Mapa, p: Pedido)
    requires Confiable(caja) && Refina(tabla, caja, m) && p.PideActualizar?
    ensures Paso(tabla, caja, p).1.Ok? <==> Procede(m, caja, p)
    ensures Paso(tabla, caja, p).1.Ok? ==> Refina(Paso(tabla, caja, p).0, caja, PasoPlano(m, p))
  {
    if p.clave in tabla {
      var a := tabla[p.clave];
      FilaActualizada(caja, a, m[p.clave], p.nuevo, OPrevio(p.secreto, a.esSecreto), p.nonce);
    }
  }

  /** One request: it is accepted exactly when the plain map says it may; refused, it changes nothing;
      accepted, the table refines the updated map. */
  lemma PasoRefina(tabla: Tabla, caja: Caja, m: Mapa, p: Pedido)
    requires Confiable(caja) && Refina(tabla, caja, m)
    ensures Paso(tabla, caja, p).1.Ok? <==> Procede(m, caja, p)
    ensures Paso(tabla, caja, p).1.Err? ==> Paso(tabla, caja, p) == (tabla, Err(Rechazo(m, p)))
    ensures Paso(tabla, caja, p).1.Ok? ==> Refina(Paso(tabla, caja, p).0, caja, PasoPlano(m, p))
  {
    match p
    case PideCrear(_, _, _, _, _, _) => CrearRefina(tabla, caja, m, p);
    case PideActualizar(_, _, _, _, _, _) => ActualizarRefina(tabla, caja, m, p);
    case PideBorrar(_, _) =>
  }

  function Tras(tabla: Tabla, caja: Caja, ps: seq<Pedido>): Tabla {
    if ps == [] then tabla else Paso(Tras(tabla, caja, ps[..|ps| - 1]), caja, ps[|ps| - 1]).0
  }

  /** The plain map after the same requests, skipping the refused ones. */
  function TrasPlano(caja: Caja, m: Mapa, ps: seq<Pedido>): Mapa {
    if ps == [] then m
    else
      var antes, p := TrasPlano(caja, m, ps[..|ps| - 1]), ps[|ps| - 1];
      if Procede(antes, caja, p) then PasoPlano(antes, p) else antes
  }

  lemma {:induction false} SiempreRefina(tabla: Tabla, caja: Caja, m: Mapa, ps: seq<Pedido>)
    requires Confiable(caja) && Refina(tabla, caja, m)
    ensures Refina(Tras(tabla, caja, ps), caja, TrasPlano(caja, m, ps))
  {
    if ps != [] {
      var previos := ps[..|ps| - 1];
      SiempreRefina(tabla, caja, m, previos);
      PasoRefina(Tras(tabla, caja, previos), caja, TrasPlano(caja, m, previos), ps[|ps| - 1]);
    }
  }

  /** Over any sequence of creates, updates and deletes the service is a plain map: `reveal` answers
      the last text written, for every key, and never fails to decrypt. Its column is encrypted
      exactly when secrecy was last asked for and the text is not empty, and the servers' own readers
      are refused exactly the keys for which secrecy was last asked. */
  lemma RevelaLoUltimoEscrito(tabla: Tabla, caja: Caja, m: Mapa, ps: seq<Pedido>, clave: string)
    requires Confiable(caja) && Refina(tabla, caja, m)
    ensures var despues, claros := Tras(tabla, caja, ps), TrasPlano(caja, m, ps);
      if clave in claros then
        var c := claros[clave];
        && Revelar(despues, caja, true, clave) == Ok(c.texto) && Revelar(despues, caja, false, clave) == Err(NoAutorizado)
        && clave in despues
        && (if c.secreto && c.texto != "" then EsCifradoDe(caja, despues[clave].valor, c.texto) else despues[clave].valor == c.texto)
        && ValorPublico(despues, clave) == if c.secreto then Err(ReglaDeNegocio) else Ok(c.texto)
      else
        clave !in despues && Revelar(despues, caja, true, clave) == Err(NoEncontrado) && ValorPublico(despues, clave) == Err(NoEncontrado)
  {
    SiempreRefina(tabla, caja, m, ps);
    if clave in Tras(tabla, caja, ps) {
      RepresentaSeLee(caja, Tras(tabla, caja, ps)[clave], TrasPlano(caja, m, ps)[clave]);
    }
  }

  /** A table that refines a plain map goes out to a device as that map: all of it can be read, and
      each variable carries its text. */
  lemma ElEntornoEsElMapa(tabla: Tabla, caja: Caja, m: Mapa, claves: seq<string>, i: nat)
    requires Confiable(caja) && Refina(tabla, caja, m) && Listado(tabla, claves) && i < |claves|
    ensures var r := ParaUnGateway(tabla, caja, claves);
      && r.Ok? && claves[i] in m
      && r.value[i] == EnvEntry(claves[i], if m[claves[i]].origen.Equipo? then "" else m[claves[i]].texto, m[claves[i]].origen)
  {
    forall k | k in claves
      ensures ValorEnClaro(caja, tabla[k]) == Ok(if m[k].origen.Equipo? then "" else m[k].texto)
    {
      RepresentaSeLee(caja, tabla[k], m[k]);
    }
  }

  /** The same run form for the devices: after any sequence of requests the whole table can be read,
      and each variable goes out with the last text written for it. */
  lemma ElEntornoDiceLoUltimoEscrito(tabla: Tabla, caja: Caja, m: Mapa, ps: seq<Pedido>, claves: seq<string>, i: nat)
    requires Confiable(caja) && Refina(tabla, caja, m)
    requires Listado(Tras(tabla, caja, ps), claves) && i < |claves|
    ensures var r, claros := ParaUnGateway(Tras(tabla, caja, ps), caja, claves), TrasPlano(caja, m, ps);
      && r.Ok? && claves[i] in claros
      && r.value[i] ==
           EnvEntry(claves[i], if claros[claves[i]].origen.Equipo? then "" else claros[claves[i]].texto, claros[claves[i]].origen)
  {
    SiempreRefina(tabla, caja, m, ps);
    ElEntornoEsElMapa(Tras(tabla, caja, ps), caja, TrasPlano(caja, m, ps), claves, i);
  }
}
