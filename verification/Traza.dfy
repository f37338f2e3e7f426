/** The update protocol seen as the moves a gateway's row can make, and what follows from those
    moves alone in every run. `Corridas` proves that requests make no other move. */
module Traza {
  import opened Wrappers
  import opened Actualizacion

  // --- the moves ------------------------------------------------------------

  /** Nothing of the protocol changes. */
  ghost predicate Quieta(a: Fila, b: Fila) {
    b.objetivo == a.objetivo && b.estado == a.estado && b.intentos == a.intentos && b.aplicarDesde == a.aplicarDesde
  }

  /** A rollout, never while the device is restarting. */
  ghost predicate Iniciada(a: Fila, b: Fila) {
    TransicionValida(a.estado, Programada) && b.objetivo.Some? && b.estado.Programada? && b.intentos == 0 && b.aplicarDesde.Some?
  }

  /** Cancelled from the panel, or because the release was retired. */
  ghost predicate Soltada(a: Fila, b: Fila) {
    !a.estado.Aplicando?
    && b.objetivo.None? && b.estado.SinPendiente? && b.aplicarDesde.None? && b.intentos <= a.intentos
  }

  /** An order went out: a failed attempt is armed again, a concession that was over is replaced. */
  ghost predicate Ofrecida(a: Fila, b: Fila) {
    a.objetivo.Some? && EnCurso(a.estado) && PuedeReintentar(a.intentos)
    && b.objetivo == a.objetivo && b.intentos == a.intentos
    && b.estado == Rearmada(a).estado && b.aplicarDesde.Some?
  }

  /** The device turned out to be running the target: closed without an ack. */
  ghost predicate Cerrada(a: Fila, b: Fila) {
    a.estado.Aplicando? && b.estado.Aplicada?
    && b.objetivo == a.objetivo && b.intentos == a.intentos && b.aplicarDesde == a.aplicarDesde
  }

  /** An accepted ack. */
  ghost predicate Acusada(a: Fila, b: Fila) {
    a.objetivo.Some? && Reportable(b.estado) && TransicionValida(a.estado, b.estado)
    && b.objetivo == a.objetivo && b.aplicarDesde == a.aplicarDesde
    && b.intentos == if b.estado.Descargando? && !a.estado.Descargando? then a.intentos + 1 else a.intentos
  }

  ghost predicate MueveSinPedido(a: Fila, b: Fila) {
    Quieta(a, b) || Soltada(a, b) || Ofrecida(a, b) || Cerrada(a, b) || Acusada(a, b)
  }

  /** The successive rows of a gateway, and which steps between them are accepted rollouts. */
  ghost predicate EsTraza(fs: seq<Fila>, pedidos: seq<bool>) {
    && |fs| == |pedidos| + 1 && InvFila(fs[0])
    && forall i {:trigger pedidos[i]} :: 0 <= i < |pedidos| ==>
         if pedidos[i] then Iniciada(fs[i], fs[i + 1]) else MueveSinPedido(fs[i], fs[i + 1])
  }

  // --- the invariant --------------------------------------------------------

  ghost predicate InvFila(f: Fila) {
    && (f.objetivo.None? <==> f.estado.SinPendiente?)
    && (f.aplicarDesde.None? <==> f.estado.SinPendiente?)
    && f.intentos <= MAX_INTENTOS
    && (f.estado.Programada? ==> f.intentos < MAX_INTENTOS)
    && (f.estado.Descargando? || f.estado.Aplicando? || f.estado.Aplicada? ==> f.intentos >= 1)
  }

  lemma MueveConserva(a: Fila, b: Fila)
    requires InvFila(a)
    requires Iniciada(a, b) || MueveSinPedido(a, b)
    ensures InvFila(b)
  {}

  lemma {:induction false} InvSiempre(fs: seq<Fila>, pedidos: seq<bool>, i: nat)
    requires EsTraza(fs, pedidos) && i < |fs|
    ensures InvFila(fs[i])
  {
    if i > 0 {
      InvSiempre(fs, pedidos, i - 1);
      assert pedidos[i - 1] || !pedidos[i - 1];
      MueveConserva(fs[i - 1], fs[i]);
    }
  }

  lemma UnPaso(fs: seq<Fila>, pedidos: seq<bool>, i: nat)
    requires EsTraza(fs, pedidos) && i < |pedidos|
    ensures InvFila(fs[i]) && InvFila(fs[i + 1])
    ensures if pedidos[i] then Iniciada(fs[i], fs[i + 1]) else MueveSinPedido(fs[i], fs[i + 1])
  {
    InvSiempre(fs, pedidos, i);
    InvSiempre(fs, pedidos, i + 1);
  }

  /** Every write of the state, by any actor, is an edge of the table or repeats the state; and
      while the device restarts with a package, no one changes its target or its attempts. */
  lemma AristaSiempre(fs: seq<Fila>, pedidos: seq<bool>, i: nat)
    requires EsTraza(fs, pedidos) && i < |pedidos|
    ensures Arista(fs[i].estado, fs[i + 1].estado)
    ensures fs[i].estado.Aplicando? ==>
      && fs[i + 1].objetivo == fs[i].objetivo && fs[i + 1].intentos == fs[i].intentos
      && (fs[i + 1].estado.Aplicando? || fs[i + 1].estado.Aplicada? || fs[i + 1].estado.Fallida?)
  {
    UnPaso(fs, pedidos, i);
    TablaDeTransiciones(fs[i].estado, fs[i + 1].estado);
  }

  // --- attempts -------------------------------------------------------------

  /** No rollout is accepted in the steps from state `i` to state `j`. */
  ghost predicate SinPedidos(pedidos: seq<bool>, i: nat, j: nat)
    requires i <= j <= |pedidos|
  {
    forall k :: i <= k < j ==> !pedidos[k]
  }

  /** How many steps between states `i` and `j` go from one state to another as `p` says. */
  ghost function Cuenta(fs: seq<Fila>, i: nat, j: nat, p: (Estado, Estado) -> bool): nat
    requires i <= j < |fs|
    decreases j
  {
    if i == j then 0
    else Cuenta(fs, i, j - 1, p) + if p(fs[j - 1].estado, fs[j].estado) then 1 else 0
  }

  const DESCARGA := (a: Estado, b: Estado) => a.Programada? && b.Descargando?
  const REINICIO := (a: Estado, b: Estado) => !a.Aplicando? && b.Aplicando?
  const CAMBIO := (a: Estado, b: Estado) => a != b
  const FALLO_TEMPRANO := (a: Estado, b: Estado) => a.Programada? && b.Fallida?

  /** While a target is set, the attempts written are the downloads begun since the rollout that
      set it. With or without it they are at most three, and so are the restarts. */
  lemma {:induction false} IntentosSonDescargas(fs: seq<Fila>, pedidos: seq<bool>, i: nat, j: nat)
    requires EsTraza(fs, pedidos) && i < j <= |pedidos|
    requires pedidos[i] && SinPedidos(pedidos, i + 1, j)
    ensures fs[j].objetivo.Some? ==> fs[j].intentos == Cuenta(fs, i + 1, j, DESCARGA)
    ensures Cuenta(fs, i + 1, j, DESCARGA) <= MAX_INTENTOS
    ensures Cuenta(fs, i + 1, j, REINICIO) + (if fs[j].estado.Descargando? then 1 else 0)
         <= Cuenta(fs, i + 1, j, DESCARGA)
  {
    UnPaso(fs, pedidos, j - 1);
    if j > i + 1 {
      IntentosSonDescargas(fs, pedidos, i, j - 1);
    }
  }

  // --- how long it can go on ------------------------------------------------

  /** State changes still possible: what is left of this attempt, and four for each one left. */
  function Restantes(f: Fila): nat
    requires f.intentos <= MAX_INTENTOS
  {
    var quedan := 4 * (MAX_INTENTOS - f.intentos);
    match f.estado
    case SinPendiente => 0
    case Aplicada => 1
    case Fallida => quedan + 1
    case Programada => quedan
    case Aplicando => quedan + 2
    case Descargando => quedan + 3
  }

  /** Every change of state but one spends some of it: the exception is a failure reported
      before the download begins, which costs no attempt and gives one change back. */
  lemma CadaCambioGasta(a: Fila, b: Fila)
    requires InvFila(a) && MueveSinPedido(a, b)
    ensures InvFila(b)
    ensures a.estado == b.estado ==> Restantes(b) == Restantes(a)
    ensures a.estado != b.estado ==>
      if a.estado.Programada? && b.estado.Fallida? then Restantes(b) == Restantes(a) + 1
      else Restantes(b) < Restantes(a)
  {
    MueveConserva(a, b);
  }

  lemma {:induction false} CambiosAcotados(fs: seq<Fila>, pedidos: seq<bool>, i: nat, j: nat)
    requires EsTraza(fs, pedidos) && i <= j <= |pedidos| && SinPedidos(pedidos, i, j)
    requires InvFila(fs[i]) && InvFila(fs[j])
    ensures Cuenta(fs, i, j, CAMBIO) + Restantes(fs[j])
         <= Restantes(fs[i]) + 2 * Cuenta(fs, i, j, FALLO_TEMPRANO)
  {
    if i < j {
      UnPaso(fs, pedidos, j - 1);
      CambiosAcotados(fs, pedidos, i, j - 1);
      CadaCambioGasta(fs[j - 1], fs[j]);
    }
  }

  /** After a rollout, and until the next one, the state changes at most eleven times while the
      target stays, and twelve in all, plus two for each failure before the download. */
  lemma OnceCambios(fs: seq<Fila>, pedidos: seq<bool>, i: nat, j: nat)
    requires EsTraza(fs, pedidos) && i < j <= |pedidos|
    requires pedidos[i] && SinPedidos(pedidos, i + 1, j)
    ensures Cuenta(fs, i + 1, j, CAMBIO) <= 12 + 2 * Cuenta(fs, i + 1, j, FALLO_TEMPRANO)
    ensures fs[j].objetivo.Some? ==>
      Cuenta(fs, i + 1, j, CAMBIO) <= 11 + 2 * Cuenta(fs, i + 1, j, FALLO_TEMPRANO)
  {
    InvSiempre(fs, pedidos, i + 1);
    InvSiempre(fs, pedidos, j);
    CambiosAcotados(fs, pedidos, i + 1, j);
  }

  /** An update that was applied stays applied, or is dropped, until another rollout. */
  lemma {:induction false} AplicadaNoVuelve(fs: seq<Fila>, pedidos: seq<bool>, i: nat, j: nat)
    requires EsTraza(fs, pedidos) && i <= j <= |pedidos| && SinPedidos(pedidos, i, j)
    requires fs[i].estado.Aplicada?
    ensures fs[j].estado.Aplicada? || fs[j].estado.SinPendiente?
  {
    if i < j {
      UnPaso(fs, pedidos, j - 1);
      AplicadaNoVuelve(fs, pedidos, i, j - 1);
    }
  }

  // --- order of the acks ----------------------------------------------------

  /** How far along one attempt is. */
  function Rango(e: Estado): nat {
    match e
    case SinPendiente => 0
    case Programada => 1
    case Descargando => 2
    case Aplicando => 3
    case Aplicada => 4
    case Fallida => 4
  }

  /** Late and repeated acks never take an attempt back: between two re-arms (and drops) the
      progress written only grows. */
  lemma {:induction false} RangoNoBaja(fs: seq<Fila>, pedidos: seq<bool>, i: nat, j: nat)
    requires EsTraza(fs, pedidos) && i <= j <= |pedidos|
    requires forall k :: i < k <= j && fs[k].estado != fs[k - 1].estado ==>
      !fs[k].estado.Programada? && !fs[k].estado.SinPendiente?
    ensures Rango(fs[i].estado) <= Rango(fs[j].estado)
    ensures Rango(fs[i].estado) == Rango(fs[j].estado) ==> fs[i].estado == fs[j].estado
  {
    if i < j {
      RangoNoBaja(fs, pedidos, i, j - 1);
      AristaSiempre(fs, pedidos, j - 1);
    }
  }
}
