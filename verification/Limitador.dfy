/** The sliding-window limiter of the monitoring login (app/core/rate_limit.py). */
module Limitador {

  /** The attempts remembered per key, oldest first. A key never seen has none. */
  type Memoria = map<string, seq<real>>

  function De(m: Memoria, clave: string): seq<real> { if clave in m then m[clave] else [] }

  /** What `_prune` leaves: attempts are dropped from the front while they are not after `corte`. */
  function Podada(xs: seq<real>, corte: real): seq<real> {
    if xs != [] && xs[0] <= corte then Podada(xs[1..], corte) else xs
  }

  function Permite(m: Memoria, clave: string, ahora: real, max: int, ventana: real): bool {
    |Podada(De(m, clave), ahora - ventana)| < max
  }

  function TrasIntento(m: Memoria, clave: string, ahora: real, max: int, ventana: real): Memoria {
    var quedan := Podada(De(m, clave), ahora - ventana);
    m[clave := if |quedan| < max then quedan + [ahora] else quedan]
  }

  class SlidingWindowLimiter {
    const maxAttempts: int
    const window: real
    var hits: Memoria

    constructor (maxAttempts: int, window: real)
      ensures this.maxAttempts == maxAttempts && this.window == window && hits == map[]
    {
      this.maxAttempts, this.window, hits := maxAttempts, window, map[];
    }

    method Prune(key: string, now: real)
      modifies this
      ensures hits == old(hits)[key := Podada(De(old(hits), key), now - window)]
    {
      if key !in hits { hits := hits[key := []]; }
      var cutoff := now - window;
      while hits[key] != [] && hits[key][0] <= cutoff
        invariant key in hits && hits == old(hits)[key := hits[key]]
        invariant Podada(hits[key], cutoff) == Podada(De(old(hits), key), cutoff)
        decreases |hits[key]|
      {
        hits := hits[key := hits[key][1..]];
      }
    }

    method Hit(key: string, now: real) returns (allowed: bool)
      modifies this
      ensures allowed == Permite(old(hits), key, now, maxAttempts, window)
      ensures hits == TrasIntento(old(hits), key, now, maxAttempts, window)
    {
      Prune(key, now);
      if |hits[key]| >= maxAttempts { return false; }
      hits := hits[key := hits[key] + [now]];
      allowed := true;
    }

    method Reset(key: string)
      modifies this
      ensures hits == old(hits) - {key}
    {
      hits := hits - {key};
    }

    method Clear()
      modifies this
      ensures hits == map[]
    {
      hits := map[];
    }
  }

  // --- runs -----------------------------------------------------------------

  /** A call, and the instant of the monotonic clock at which it happens. */
  datatype Llamada = Hit(clave: string, t: real) | Reset(clave: string, t: real) | Clear(t: real)

  datatype Limite = Limite(max: int, ventana: real)

  /** Instants never go back. */
  ghost predicate EnOrden(ops: seq<Llamada>) {
    forall i, j :: 0 <= i < j < |ops| ==> ops[i].t <= ops[j].t
  }

  function Tras(ops: seq<Llamada>, l: Limite): Memoria {
    if ops == [] then map[]
    else
      var m, op := Tras(ops[..|ops| - 1], l), ops[|ops| - 1];
      match op
      case Hit(clave, t) => TrasIntento(m, clave, t, l.max, l.ventana)
      case Reset(clave, _) => m - {clave}
      case Clear(_) => map[]
  }

  predicate Olvida(op: Llamada, clave: string) { op.Clear? || (op.Reset? && op.clave == clave) }

  /** The `i`-th call is an attempt for `clave` that the limiter allows. */
  predicate Permitido(ops: seq<Llamada>, i: nat, clave: string, l: Limite)
    requires i < |ops|
  {
    ops[i].Hit? && ops[i].clave == clave && Permite(Tras(ops[..i], l), clave, ops[i].t, l.max, l.ventana)
  }

  /** The whole history: every attempt allowed for a key since it was last forgotten. */
  function Historia(ops: seq<Llamada>, clave: string, l: Limite): seq<real> {
    if ops == [] then []
    else
      var n := |ops| - 1;
      if Olvida(ops[n], clave) then []
      else if Permitido(ops, n, clave, l) then Historia(ops[..n], clave, l) + [ops[n].t]
      else Historia(ops[..n], clave, l)
  }

  /** Those of a list that are after `corte`. */
  function Despues(xs: seq<real>, corte: real): seq<real> {
    if xs == [] then []
    else if xs[|xs| - 1] > corte then Despues(xs[..|xs| - 1], corte) + [xs[|xs| - 1]]
    else Despues(xs[..|xs| - 1], corte)
  }

  predicate Creciente(xs: seq<real>) { forall i, j :: 0 <= i < j < |xs| ==> xs[i] <= xs[j] }

  lemma DespuesDeAgregar(xs: seq<real>, x: real, corte: real)
    ensures Despues(xs + [x], corte) == if x > corte then Despues(xs, corte) + [x] else Despues(xs, corte)
  {
    assert (xs + [x])[..|xs|] == xs;
  }

  lemma {:induction false} NadaDespues(xs: seq<real>, corte: real)
    requires forall i :: 0 <= i < |xs| ==> xs[i] <= corte
    ensures Despues(xs, corte) == []
  {
    if xs != [] { NadaDespues(xs[..|xs| - 1], corte); }
  }

  lemma {:induction false} TodoDespues(xs: seq<real>, corte: real)
    requires forall i :: 0 <= i < |xs| ==> xs[i] > corte
    ensures Despues(xs, corte) == xs
  {
    if xs != [] { TodoDespues(xs[..|xs| - 1], corte); }
  }

  lemma {:induction false} DespuesDeQuitar(xs: seq<real>, corte: real)
    requires xs != [] && xs[0] <= corte
    ensures Despues(xs, corte) == Despues(xs[1..], corte)
  {
    var n := |xs| - 1;
    if n == 0 {
      assert xs[..n] == [];
    } else {
      DespuesDeQuitar(xs[..n], corte);
      assert xs[..n][1..] == xs[1..][..n - 1];
    }
  }

  /** On a list in order, dropping from the front is filtering. */
  lemma {:induction false} PodarEsFiltrar(xs: seq<real>, corte: real)
    requires Creciente(xs)
    ensures Podada(xs, corte) == Despues(xs, corte)
  {
    if xs != [] && xs[0] <= corte {
      DespuesDeQuitar(xs, corte);
      PodarEsFiltrar(xs[1..], corte);
    } else {
      TodoDespues(xs, corte);
    }
  }

  /** Filtering by an older cut-off first makes no difference. */
  lemma {:induction false} DespuesDosVeces(xs: seq<real>, viejo: real, corte: real)
    requires viejo <= corte
    ensures Despues(Despues(xs, viejo), corte) == Despues(xs, corte)
    ensures |Despues(xs, corte)| <= |Despues(xs, viejo)|
  {
    if xs != [] {
      var n := |xs| - 1;
      DespuesDosVeces(xs[..n], viejo, corte);
      DespuesDeAgregar(Despues(xs[..n], viejo), xs[n], corte);
    }
  }

  lemma {:induction false} DespuesCreciente(xs: seq<real>, corte: real)
    requires Creciente(xs)
    ensures Creciente(Despues(xs, corte))
    ensures forall i :: 0 <= i < |Despues(xs, corte)| ==> Despues(xs, corte)[i] in xs
  {
    if xs != [] {
      var n := |xs| - 1;
      DespuesCreciente(xs[..n], corte);
      assert forall x :: x in xs[..n] ==> x <= xs[n];
    }
  }

  /** The instant of the last call, or `t` if there is none. */
  function Ultimo(ops: seq<Llamada>, t: real): real { if ops == [] then t else ops[|ops| - 1].t }

  lemma SinLaUltima(ops: seq<Llamada>)
    requires EnOrden(ops) && ops != []
    ensures EnOrden(ops[..|ops| - 1])
    ensures Ultimo(ops[..|ops| - 1], ops[|ops| - 1].t) <= ops[|ops| - 1].t
  {}

  /** The history is in order, and nothing in it is later than the calls so far. */
  lemma {:induction false} HistoriaEnOrden(ops: seq<Llamada>, clave: string, l: Limite)
    requires EnOrden(ops)
    ensures Creciente(Historia(ops, clave, l))
    ensures forall x :: x in Historia(ops, clave, l) ==> ops != [] && x <= ops[|ops| - 1].t
  {
    if ops != [] {
      var n := |ops| - 1;
      HistoriaEnOrden(ops[..n], clave, l);
      var xs := Historia(ops[..n], clave, l);
      assert forall i :: 0 <= i < |xs| ==> xs[i] in xs;
      assert n > 0 ==> ops[n - 1].t <= ops[n].t;
    }
  }

  lemma ColaTrasIntento(xs: seq<real>, t: real, cabe: bool, viejo: real, corte: real)
    requires Creciente(xs) && (forall x :: x in xs ==> x <= t) && viejo <= corte
    ensures var cola := if cabe then Despues(xs, viejo) + [t] else Despues(xs, viejo);
      Podada(cola, corte) == Despues(if cabe then xs + [t] else xs, corte)
  {
    var ys := Despues(xs, viejo);
    DespuesCreciente(xs, viejo);
    assert Creciente(ys + [t]);
    DespuesDosVeces(xs, viejo, corte);
    DespuesDeAgregar(xs, t, corte);
    DespuesDeAgregar(ys, t, corte);
    PodarEsFiltrar(if cabe then ys + [t] else ys, corte);
  }

  lemma ColaDeUnIntento(previas: seq<Llamada>, op: Llamada, clave: string, l: Limite)
    requires op.Hit? && op.clave == clave
    ensures var quedan := Podada(De(Tras(previas, l), clave), op.t - l.ventana);
      De(Tras(previas + [op], l), clave) == if |quedan| < l.max then quedan + [op.t] else quedan
  {
    assert (previas + [op])[..|previas|] == previas;
  }

  lemma HistoriaTrasIntento(previas: seq<Llamada>, op: Llamada, clave: string, l: Limite)
    requires op.Hit? && op.clave == clave
    ensures Historia(previas + [op], clave, l) ==
      if Permite(Tras(previas, l), clave, op.t, l.max, l.ventana) then Historia(previas, clave, l) + [op.t] else Historia(previas, clave, l)
  {
    assert (previas + [op])[..|previas|] == previas;
  }

  lemma IntentoConserva(previas: seq<Llamada>, op: Llamada, clave: string, l: Limite, ahora: real)
    requires op.Hit? && op.clave == clave && op.t <= ahora
    requires EnOrden(previas) && Ultimo(previas, op.t) <= op.t
    requires Podada(De(Tras(previas, l), clave), op.t - l.ventana) == Despues(Historia(previas, clave, l), op.t - l.ventana)
    ensures Podada(De(Tras(previas + [op], l), clave), ahora - l.ventana)
         == Despues(Historia(previas + [op], clave, l), ahora - l.ventana)
  {
    var xs, cabe := Historia(previas, clave, l), Permite(Tras(previas, l), clave, op.t, l.max, l.ventana);
    HistoriaEnOrden(previas, clave, l);
    ColaTrasIntento(xs, op.t, cabe, op.t - l.ventana, ahora - l.ventana);
    ColaDeUnIntento(previas, op, clave, l);
    HistoriaTrasIntento(previas, op, clave, l);
  }

  /** The deque refines the history: it is the whole history filtered by some cut-off no later
      than the last call's, so pruning it now gives the same as filtering everything now. */
  lemma {:induction false} LaColaEsLaHistoria(ops: seq<Llamada>, clave: string, l: Limite, ahora: real)
    requires EnOrden(ops) && Ultimo(ops, ahora) <= ahora
    ensures Podada(De(Tras(ops, l), clave), ahora - l.ventana) == Despues(Historia(ops, clave, l), ahora - l.ventana)
  {
    if ops != [] {
      var n := |ops| - 1;
      var previas, op := ops[..n], ops[n];
      assert ops == previas + [op];
      SinLaUltima(ops);
      if op.Hit? && op.clave == clave {
        LaColaEsLaHistoria(previas, clave, l, op.t);
        IntentoConserva(previas, op, clave, l, ahora);
      } else if !Olvida(op, clave) {
        LaColaEsLaHistoria(previas, clave, l, ahora);
        assert De(Tras(ops, l), clave) == De(Tras(previas, l), clave);
      }
    }
  }

  /** An attempt is refused exactly when the allowance is already spent in the window that ends
      now, by attempts since the key was last forgotten. */
  lemma RechazaSii(ops: seq<Llamada>, clave: string, l: Limite, ahora: real)
    requires EnOrden(ops) && Ultimo(ops, ahora) <= ahora
    ensures !Permite(Tras(ops, l), clave, ahora, l.max, l.ventana) <==>
      |Despues(Historia(ops, clave, l), ahora - l.ventana)| >= l.max
  {
    LaColaEsLaHistoria(ops, clave, l, ahora);
  }

  lemma OtrasClavesIntactas(ops: seq<Llamada>, op: Llamada, clave: string, l: Limite)
    requires !op.Clear? && op.clave != clave
    ensures De(Tras(ops + [op], l), clave) == De(Tras(ops, l), clave)
  {
    assert (ops + [op])[..|ops|] == ops;
  }

  /** The calls that have to do with a key: its own, and the ones that forget everything. */
  function Propias(ops: seq<Llamada>, clave: string): seq<Llamada> {
    if ops == [] then []
    else
      var previas, op := Propias(ops[..|ops| - 1], clave), ops[|ops| - 1];
      if op.Clear? || op.clave == clave then previas + [op] else previas
  }

  /** What the attempts for a key are answered, one after another. */
  function Respuestas(ops: seq<Llamada>, clave: string, l: Limite): seq<bool> {
    if ops == [] then []
    else
      var n := |ops| - 1;
      Respuestas(ops[..n], clave, l)
      + if ops[n].Hit? && ops[n].clave == clave then [Permite(Tras(ops[..n], l), clave, ops[n].t, l.max, l.ventana)] else []
  }

  lemma PropiaAgrega(previas: seq<Llamada>, propias: seq<Llamada>, op: Llamada, clave: string, l: Limite)
    requires op.Clear? || op.clave == clave
    requires De(Tras(previas, l), clave) == De(Tras(propias, l), clave)
    requires Respuestas(previas, clave, l) == Respuestas(propias, clave, l)
    ensures De(Tras(previas + [op], l), clave) == De(Tras(propias + [op], l), clave)
    ensures Respuestas(previas + [op], clave, l) == Respuestas(propias + [op], clave, l)
  {
    assert (previas + [op])[..|previas|] == previas && (propias + [op])[..|propias|] == propias;
  }

  /** Keys do not see one another: in every run, without the calls for other keys, a key has the same
      deque and every attempt for it gets the same answer. */
  lemma {:induction false} LasDemasClavesNoCuentan(ops: seq<Llamada>, clave: string, l: Limite)
    ensures De(Tras(ops, l), clave) == De(Tras(Propias(ops, clave), l), clave)
    ensures Respuestas(ops, clave, l) == Respuestas(Propias(ops, clave), clave, l)
  {
    if ops != [] {
      var n := |ops| - 1;
      var op := ops[n];
      assert ops == ops[..n] + [op];
      LasDemasClavesNoCuentan(ops[..n], clave, l);
      if op.Clear? || op.clave == clave {
        PropiaAgrega(ops[..n], Propias(ops[..n], clave), op, clave, l);
      } else {
        OtrasClavesIntactas(ops[..n], op, clave, l);
      }
    }
  }

  // --- the bound over every interval ----------------------------------------

  /** How many attempts for a key are allowed at instants in (t - W, t], over the whole run. */
  function PermitidosEn(ops: seq<Llamada>, clave: string, l: Limite, t: real): nat {
    if ops == [] then 0
    else
      var n := |ops| - 1;
      PermitidosEn(ops[..n], clave, l, t)
      + if Permitido(ops, n, clave, l) && t - l.ventana < ops[n].t <= t then 1 else 0
  }

  lemma {:induction false} HistoriaReciente(ops: seq<Llamada>, clave: string, l: Limite, corte: real)
    requires EnOrden(ops) && Ultimo(ops, corte + l.ventana) <= corte + l.ventana
    ensures |Despues(Historia(ops, clave, l), corte)| <= if l.max < 0 then 0 else l.max
  {
    if ops != [] {
      var n := |ops| - 1;
      var previas, op := ops[..n], ops[n];
      SinLaUltima(ops);
      HistoriaReciente(previas, clave, l, corte);
      var xs := Historia(previas, clave, l);
      if Permitido(ops, n, clave, l) {
        RechazaSii(previas, clave, l, op.t);
        DespuesDosVeces(xs, op.t - l.ventana, corte);
        DespuesDeAgregar(xs, op.t, corte);
        assert Historia(ops, clave, l) == xs + [op.t];
      }
    }
  }

  lemma {:induction false} NadieEn(ops: seq<Llamada>, clave: string, l: Limite, t: real)
    requires forall i :: 0 <= i < |ops| ==> ops[i].t <= t - l.ventana
    ensures PermitidosEn(ops, clave, l, t) == 0
  {
    if ops != [] { NadieEn(ops[..|ops| - 1], clave, l, t); }
  }

  ghost predicate SinOlvidos(ops: seq<Llamada>, clave: string, l: Limite, t: real) {
    forall i :: 0 <= i < |ops| && Olvida(ops[i], clave) ==> !(t - l.ventana < ops[i].t <= t)
  }

  lemma {:induction false} PermitidosSonHistoria(ops: seq<Llamada>, clave: string, l: Limite, t: real)
    requires EnOrden(ops) && SinOlvidos(ops, clave, l, t)
    requires forall i :: 0 <= i < |ops| ==> ops[i].t <= t
    ensures PermitidosEn(ops, clave, l, t) == |Despues(Historia(ops, clave, l), t - l.ventana)|
  {
    if ops != [] {
      var n := |ops| - 1;
      var previas := ops[..n];
      if Olvida(ops[n], clave) {
        assert ops[n].t <= t - l.ventana;
        NadieEn(previas, clave, l, t);
      } else {
        PermitidosSonHistoria(previas, clave, l, t);
        var xs := Historia(previas, clave, l);
        DespuesDeAgregar(xs, ops[n].t, t - l.ventana);
        assert Historia(ops, clave, l) == if Permitido(ops, n, clave, l) then xs + [ops[n].t] else xs;
      }
    }
  }

  /** In every run, and for every interval of one window's length in which a key is not
      forgotten, at most `max` attempts for it are allowed. */
  lemma {:induction false} NuncaMasQueElMaximo(ops: seq<Llamada>, clave: string, l: Limite, t: real)
    requires EnOrden(ops) && SinOlvidos(ops, clave, l, t)
    ensures PermitidosEn(ops, clave, l, t) <= if l.max < 0 then 0 else l.max
  {
    if ops != [] {
      var n := |ops| - 1;
      if ops[n].t > t {
        NuncaMasQueElMaximo(ops[..n], clave, l, t);
      } else {
        PermitidosSonHistoria(ops, clave, l, t);
        HistoriaReciente(ops, clave, l, t - l.ventana);
      }
    }
  }
}
