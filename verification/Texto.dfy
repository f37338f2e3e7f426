/** Trimming, and natural numbers written in a base: what versions, addresses and settings share. */
module Texto {

  /** The characters `str.strip` removes. */
  predicate EsEspacio(c: char) {
    var n := c as int;
    9 <= n <= 13 || 28 <= n <= 32 || n == 0x85 || n == 0xA0 || n == 0x1680
    || 0x2000 <= n <= 0x200A || n == 0x2028 || n == 0x2029 || n == 0x202F || n == 0x205F || n == 0x3000
  }

  function SinIzquierda(s: string): string {
    if s != [] && EsEspacio(s[0]) then SinIzquierda(s[1..]) else s
  }

  function SinDerecha(s: string): string {
    if s != [] && EsEspacio(s[|s| - 1]) then SinDerecha(s[..|s| - 1]) else s
  }

  function Strip(s: string): string { SinDerecha(SinIzquierda(s)) }

  /** No blanks at either end. */
  predicate Recortado(s: string) {
    s != [] ==> !EsEspacio(s[0]) && !EsEspacio(s[|s| - 1])
  }

  lemma {:induction false} SinIzquierdaEmpieza(s: string)
    ensures SinIzquierda(s) != [] ==> !EsEspacio(SinIzquierda(s)[0])
  {
    if s != [] && EsEspacio(s[0]) { SinIzquierdaEmpieza(s[1..]); }
  }

  lemma {:induction false} SinDerechaTermina(s: string)
    ensures SinDerecha(s) <= s
    ensures SinDerecha(s) != [] ==> !EsEspacio(SinDerecha(s)[|SinDerecha(s)| - 1])
  {
    if s != [] && EsEspacio(s[|s| - 1]) { SinDerechaTermina(s[..|s| - 1]); }
  }

  lemma StripRecorta(s: string)
    ensures Recortado(Strip(s))
    ensures Recortado(s) ==> Strip(s) == s
    ensures Strip(Strip(s)) == Strip(s)
  {
    SinIzquierdaEmpieza(s);
    SinDerechaTermina(SinIzquierda(s));
  }

  function Ceros(n: nat): string { seq(n, i requires 0 <= i < n => '0') }

  // --- digits ---------------------------------------------------------------

  function ValorDigito(c: char): int {
    if '0' <= c <= '9' then c as int - '0' as int
    else if 'a' <= c <= 'f' then c as int - 'a' as int + 10
    else if 'A' <= c <= 'F' then c as int - 'A' as int + 10
    else -1
  }

  predicate EsDigito(c: char, base: nat) { 0 <= ValorDigito(c) < base }

  predicate SonDigitos(s: string, base: nat) { forall i :: 0 <= i < |s| ==> EsDigito(s[i], base) }

  /** The number a digit string denotes, most significant digit first. */
  function Numero(s: string, base: nat): nat {
    if s == [] then 0
    else base * Numero(s[..|s| - 1], base) + Peso(s[|s| - 1])
  }

  function Peso(c: char): nat { if ValorDigito(c) < 0 then 0 else ValorDigito(c) }

  function Digito(d: nat): (c: char)
    requires d < 16
    ensures ValorDigito(c) == d
    ensures !('a' <= c <= 'f')
  {
    if d < 10 then '0' + d as char else 'A' + (d - 10) as char
  }

  /** A number written in a base, with capital letters beyond nine and no leading zeros. */
  function Imprimir(n: nat, base: nat): (s: string)
    requires 2 <= base <= 16
    ensures s != [] && SonDigitos(s, base)
    ensures forall i :: 0 <= i < |s| ==> !('a' <= s[i] <= 'f')
    decreases n
  {
    if n < base then [Digito(n)]
    else
      assert n / base < n by { CocienteMenor(n, base); }
      Imprimir(n / base, base) + [Digito(n % base)]
  }

  lemma DivisionEntera(n: nat, base: nat)
    requires base >= 1
    ensures n == base * (n / base) + n % base
  {}

  lemma DobleAlMenos(q: nat, base: nat)
    requires 2 <= base
    ensures base * q >= 2 * q
  {
    assert (base - 2) * q >= 0;
    assert base * q == 2 * q + (base - 2) * q;
  }

  lemma CocienteMenor(n: nat, base: nat)
    requires 2 <= base && base <= n
    ensures 0 < n / base < n
  {
    DivisionEntera(n, base);
    DobleAlMenos(n / base, base);
  }

  lemma NumeroAlAgregar(s: string, c: char, base: nat)
    requires SonDigitos(s, base) && EsDigito(c, base)
    ensures SonDigitos(s + [c], base)
    ensures Numero(s + [c], base) == base * Numero(s, base) + Peso(c)
  {
    assert (s + [c])[..|s|] == s;
  }

  lemma {:induction false} NumeroDeImprimir(n: nat, base: nat)
    requires 2 <= base <= 16
    ensures Numero(Imprimir(n, base), base) == n
    decreases n
  {
    var s := Imprimir(n, base);
    if n < base {
      assert s[..0] == [];
    } else {
      CocienteMenor(n, base);
      var q, d := n / base, n % base;
      DivisionEntera(n, base);
      NumeroDeImprimir(q, base);
      NumeroAlAgregar(Imprimir(q, base), Digito(d), base);
    }
  }

  /** Zero padding on the left changes the text and not the number. */
  lemma {:induction false} NumeroConCeros(ceros: string, s: string, base: nat)
    requires 1 <= base && SonDigitos(s, base)
    requires forall i :: 0 <= i < |ceros| ==> ceros[i] == '0'
    ensures SonDigitos(ceros + s, base)
    ensures Numero(ceros + s, base) == Numero(s, base)
  {
    var t := ceros + s;
    if s == [] {
      assert t == ceros;
      if ceros != [] {
        var m := ceros[..|ceros| - 1];
        assert m + [] == m && t == m + ['0'];
        NumeroConCeros(m, [], base);
        NumeroAlAgregar(m, '0', base);
      }
    } else {
      var m := s[..|s| - 1];
      NumeroConCeros(ceros, m, base);
      NumeroAlAgregar(ceros + m, s[|s| - 1], base);
      assert t == (ceros + m) + [s[|s| - 1]];
    }
  }

  /** How many leading digits a text has: what a greedy `\d+` takes. */
  function LargoDigitos(s: string): nat {
    if s == [] || !EsDigito(s[0], 10) then 0 else 1 + LargoDigitos(s[1..])
  }

  lemma {:induction false} LargoDigitosCorta(s: string)
    ensures LargoDigitos(s) <= |s|
    ensures SonDigitos(s[..LargoDigitos(s)], 10)
  {
    if s != [] && EsDigito(s[0], 10) {
      LargoDigitosCorta(s[1..]);
      var n := LargoDigitos(s);
      assert s[..n] == [s[0]] + s[1..][..n - 1];
    }
  }

  lemma {:induction false} LargoDigitosDe(a: string, resto: string)
    requires SonDigitos(a, 10)
    requires resto != [] ==> !EsDigito(resto[0], 10)
    ensures LargoDigitos(a + resto) == |a|
  {
    if a == [] {
      assert a + resto == resto;
    } else {
      LargoDigitosDe(a[1..], resto);
      assert (a + resto)[1..] == a[1..] + resto;
    }
  }

  lemma {:induction false} ImprimirSinCeros(n: nat, base: nat)
    requires 2 <= base <= 16
    ensures n > 0 ==> Imprimir(n, base)[0] != '0'
    ensures n == 0 ==> Imprimir(n, base) == "0"
    decreases n
  {
    if n >= base {
      CocienteMenor(n, base);
      ImprimirSinCeros(n / base, base);
    }
  }

  lemma UnaCifraMas(n: nat, c: char)
    requires '0' <= c <= '9'
    ensures n > 0 ==> Imprimir(10 * n + Peso(c), 10) == Imprimir(n, 10) + [c]
    ensures Imprimir(Peso(c), 10) == [c]
  {
    if n > 0 {
      assert (10 * n + Peso(c)) / 10 == n && (10 * n + Peso(c)) % 10 == Peso(c);
    }
  }

  lemma CerosMasUno(k: nat)
    ensures Ceros(k) + "0" == Ceros(k + 1)
  {}

  lemma CerosYUnaCifraMas(m: string, n: nat, c: char, k: nat) returns (j: nat)
    requires m == Ceros(k) + Imprimir(n, 10) && '0' <= c <= '9'
    ensures m + [c] == Ceros(j) + Imprimir(10 * n + Peso(c), 10)
  {
    UnaCifraMas(n, c);
    if n == 0 {
      j := k + 1;
      CerosMasUno(k);
      assert Imprimir(0, 10) == "0";
    } else {
      j := k;
      assert m + [c] == Ceros(k) + (Imprimir(n, 10) + [c]);
    }
  }

  /** A decimal text is its number, as it is printed, after some zeros. */
  lemma {:induction false} CerosEImprimir(s: string) returns (k: nat)
    requires s != "" && SonDigitos(s, 10)
    ensures s == Ceros(k) + Imprimir(Numero(s, 10), 10)
  {
    var m, c := s[..|s| - 1], s[|s| - 1];
    assert EsDigito(c, 10) && s == m + [c];
    if m == "" {
      UnaCifraMas(0, c);
      k := 0;
    } else {
      k := CerosEImprimir(m);
      k := CerosYUnaCifraMas(m, Numero(m, 10), c, k);
    }
  }
}
