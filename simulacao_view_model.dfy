/** The simulation view-model: the business rules (rate tiers, input
    validation, input filters) and the state machine over `uiState`. */
module ViewModel {
  import opened Opcoes
  import opened Texto
  import opened CalculoEmprestimo
  import opened UiState

  const TaxaBase: real := 6.0
  const MontanteMinimo: real := 500.0
  const MontanteMaximo: real := 75000.0
  const PrazoMaximo: int := 84

  /** `replace(',', '.')`: a decimal comma becomes a decimal point. */
  function Normalizar(s: string): string {
    Replace(s, ',', '.')
  }

  // ---------------------------------------------------------------------
  // The amount filter of `onMontanteChange`.

  /** Digits and at most one '.'. */
  predicate FormaFiltrada(s: string) {
    (forall k :: 0 <= k < |s| ==> IsDigit(s[k]) || s[k] == '.') &&
    (forall j, k :: 0 <= j < k < |s| && s[j] == '.' ==> s[k] != '.')
  }

  /** What the `for` loop over the normalized text builds: each digit, and
      the first '.' only. */
  function FiltroMontante(s: string): string {
    if s == [] then []
    else
      var p := FiltroMontante(s[..|s| - 1]);
      var c := s[|s| - 1];
      if IsDigit(c) || (c == '.' && '.' !in p) then p + [c] else p
  }

  /** The `buildString` loop with its `jaTemPonto` flag. */
  method FiltrarMontante(normalizado: string) returns (filtrado: string)
    ensures filtrado == FiltroMontante(normalizado)
  {
    filtrado := "";
    var jaTemPonto := false;
    for i := 0 to |normalizado|
      invariant filtrado == FiltroMontante(normalizado[..i])
      invariant jaTemPonto <==> '.' in filtrado
    {
      var c := normalizado[i];
      assert normalizado[..i + 1][..i] == normalizado[..i];
      if IsDigit(c) {
        filtrado := filtrado + [c];
      } else if c == '.' && !jaTemPonto {
        filtrado := filtrado + [c];
        jaTemPonto := true;
      }
    }
    assert normalizado[..|normalizado|] == normalizado;
  }

  /** Index of the first '.', or the length when there is none. */
  function PrimeiroPonto(s: string): (k: nat)
    ensures k <= |s|
    ensures forall j :: 0 <= j < k ==> s[j] != '.'
    ensures k < |s| ==> s[k] == '.'
  {
    if s == [] then 0
    else
      var k := PrimeiroPonto(s[..|s| - 1]);
      if k < |s| - 1 || s[|s| - 1] == '.' then k else |s|
  }

  /** The first '.' is determined by its two defining properties. */
  lemma PrimeiroPontoUnico(s: string, k: nat)
    requires k <= |s|
    requires forall j :: 0 <= j < k ==> s[j] != '.'
    requires k < |s| ==> s[k] == '.'
    ensures PrimeiroPonto(s) == k
  {
  }

  lemma {:induction false} FiltroMontanteForma(s: string)
    ensures FormaFiltrada(FiltroMontante(s))
  {
    if s != [] {
      FiltroMontanteForma(s[..|s| - 1]);
    }
  }

  lemma {:induction false} FiltroMontanteSubsequencia(s: string)
    ensures IsSubsequence(FiltroMontante(s), s)
  {
    if s != [] {
      FiltroMontanteSubsequencia(s[..|s| - 1]);
      var p := FiltroMontante(s[..|s| - 1]);
      if FiltroMontante(s) != p {
        assert (p + [s[|s| - 1]])[..|p|] == p;
      }
    }
  }

  /** The filter leaves a text alone exactly when it is already in filtered form. */
  lemma {:induction false} FiltroMontantePontoFixo(s: string)
    ensures FiltroMontante(s) == s <==> FormaFiltrada(s)
  {
    FiltroMontanteForma(s);
    if s != [] && FormaFiltrada(s) {
      var q := s[..|s| - 1];
      assert FormaFiltrada(q);
      FiltroMontantePontoFixo(q);
      assert q + [s[|s| - 1]] == s;
      if s[|s| - 1] == '.' {
        assert forall j :: 0 <= j < |q| ==> q[j] != '.';
      }
    }
  }

  lemma FiltroMontanteIdempotente(s: string)
    ensures FiltroMontante(FiltroMontante(s)) == FiltroMontante(s)
  {
    FiltroMontanteForma(s);
    FiltroMontantePontoFixo(FiltroMontante(s));
  }

  /** Reference definition: the digits before the first '.', that '.', and the
      digits after it; or only the digits when there is no '.'. */
  lemma {:induction false} FiltroMontanteReferencia(s: string)
    ensures FiltroMontante(s) == Referencia(s)
  {
    if s != [] {
      var q, c := s[..|s| - 1], s[|s| - 1];
      FiltroMontanteReferencia(q);
      assert q + [c] == s;
      if PrimeiroPonto(q) < |q| {
        ReferenciaComPonto(q, c);
      } else {
        ReferenciaSemPonto(q, c);
      }
    }
  }

  /** The reference form of the filtered text. */
  function Referencia(s: string): string {
    var k := PrimeiroPonto(s);
    if k < |s| then FilterDigits(s[..k]) + ['.'] + FilterDigits(s[k + 1..])
    else FilterDigits(s)
  }

  lemma FilterDigitsSnoc(a: string, c: char)
    ensures FilterDigits(a + [c]) == FilterDigits(a) + (if IsDigit(c) then [c] else [])
  {
    assert (a + [c])[..|a|] == a;
  }

  lemma ReferenciaComPonto(q: string, c: char)
    requires PrimeiroPonto(q) < |q|
    requires FiltroMontante(q) == Referencia(q)
    ensures FiltroMontante(q + [c]) == Referencia(q + [c])
  {
    var extra := if IsDigit(c) then [c] else [];
    var k := PrimeiroPonto(q);
    var a := FilterDigits(q[..k]);
    assert Referencia(q)[|a|] == '.';
    FiltroComPonto(q, c);
    ReferenciaSnoc(q, c);
  }

  /** Once a '.' has been kept, only digits are. */
  lemma FiltroComPonto(q: string, c: char)
    requires '.' in FiltroMontante(q)
    ensures FiltroMontante(q + [c]) == FiltroMontante(q) + (if IsDigit(c) then [c] else [])
  {
    assert (q + [c])[..|q|] == q;
  }

  lemma ReferenciaSnoc(q: string, c: char)
    requires PrimeiroPonto(q) < |q|
    ensures Referencia(q + [c]) == Referencia(q) + (if IsDigit(c) then [c] else [])
  {
    var k := PrimeiroPonto(q);
    var a, b := FilterDigits(q[..k]), FilterDigits(q[k + 1..]);
    var extra := if IsDigit(c) then [c] else [];
    ReferenciaPartes(q, c);
    FilterDigitsSnoc(q[k + 1..], c);
    Encadeia(Referencia(q + [c]), Referencia(q), a, FilterDigits(q[k + 1..] + [c]), b, extra);
  }

  lemma Encadeia(r1: string, r0: string, a: string, y: string, b: string, e: string)
    requires r1 == a + ['.'] + y && y == b + e && r0 == a + ['.'] + b
    ensures r1 == r0 + e
  {
  }

  lemma ReferenciaPartes(q: string, c: char)
    requires PrimeiroPonto(q) < |q|
    ensures Referencia(q + [c]) ==
            FilterDigits(q[..PrimeiroPonto(q)]) + ['.'] + FilterDigits(q[PrimeiroPonto(q) + 1..] + [c])
  {
    var k := PrimeiroPonto(q);
    FatiasSnoc(q, c, k);
  }

  lemma FatiasSnoc(q: string, c: char, k: nat)
    requires k < |q|
    ensures (q + [c])[..|q|] == q
    ensures (q + [c])[..k] == q[..k]
    ensures (q + [c])[k + 1..] == q[k + 1..] + [c]
  {
  }

  lemma ReferenciaSemPonto(q: string, c: char)
    requires PrimeiroPonto(q) == |q|
    requires FiltroMontante(q) == Referencia(q)
    ensures FiltroMontante(q + [c]) == Referencia(q + [c])
  {
    var s := q + [c];
    assert s[..|s| - 1] == q;
    FilterDigitsNoDot(q);
    FilterDigitsSnoc(q, c);
    if c == '.' {
      assert PrimeiroPonto(s) == |q|;
      assert s[..|q|] == q;
      assert s[|q| + 1..] == [];
    } else {
      assert PrimeiroPonto(s) == |s|;
    }
  }

  lemma FilterDigitsNoDot(s: string)
    ensures '.' !in FilterDigits(s)
  {
    FilterDigitsAllDigits(s);
  }

  /** The whole `onMontanteChange` input step, normalize then filter, is idempotent. */
  lemma EntradaMontanteIdempotente(novo: string)
    ensures FiltroMontante(Normalizar(FiltroMontante(Normalizar(novo)))) == FiltroMontante(Normalizar(novo))
  {
    var f := FiltroMontante(Normalizar(novo));
    FiltroMontanteForma(Normalizar(novo));
    ReplaceAbsent(f, ',', '.');
    FiltroMontanteIdempotente(Normalizar(novo));
  }

  // ---------------------------------------------------------------------
  // `validarMontante`.

  /** The pattern `^\d+(\.\d{0,2})?$`. */
  predicate FormatoMontante(s: string) {
    var k := PrimeiroPonto(s);
    1 <= k && AllDigits(s[..k]) && (k == |s| || (AllDigits(s[k + 1..]) && |s| - (k + 1) <= 2))
  }

  /** The pattern read literally: one or more digits, or digits, a '.' and up to two digits. */
  lemma FormatoMontanteSse(s: string)
    ensures FormatoMontante(s) <==>
            (s != [] && AllDigits(s)) ||
            (exists k :: 1 <= k < |s| && s[k] == '.' && AllDigits(s[..k]) && AllDigits(s[k + 1..]) && |s| - (k + 1) <= 2)
  {
    var p := PrimeiroPonto(s);
    if s != [] && AllDigits(s) {
      assert p == |s|;
      assert s[..p] == s;
    }
    if exists k :: 1 <= k < |s| && s[k] == '.' && AllDigits(s[..k]) && AllDigits(s[k + 1..]) && |s| - (k + 1) <= 2 {
      var k :| 1 <= k < |s| && s[k] == '.' && AllDigits(s[..k]) && AllDigits(s[k + 1..]) && |s| - (k + 1) <= 2;
      assert forall j :: 0 <= j < k ==> s[..k][j] == s[j];
      assert p == k;
    }
    if FormatoMontante(s) && p == |s| {
      assert s[..p] == s;
    }
  }

  /** The digits after the decimal point (none without one). */
  function ParteDecimal(s: string): string {
    var k := PrimeiroPonto(s);
    if k < |s| then s[k + 1..] else []
  }

  /** How many digits follow the decimal point. */
  function Decimais(s: string): nat {
    |ParteDecimal(s)|
  }

  /** `v` is the decimal number `s` spells: the integer its digits spell,
      divided by ten once per decimal; so it lies between its
      integer part and the next integer. */
  predicate Denota(s: string, v: real) {
    AllDigits(s[..PrimeiroPonto(s)]) && AllDigits(FilterDigits(s)) &&
    v == Escala(DigitsValue(FilterDigits(s)) as real, Decimais(s)) &&
    DigitsValue(s[..PrimeiroPonto(s)]) as real <= v < DigitsValue(s[..PrimeiroPonto(s)]) as real + 1.0
  }

  /** The number a text of that pattern denotes (`toDouble`). */
  function ValorMontante(s: string): (v: real)
    requires FormatoMontante(s)
    ensures Denota(s, v)
    ensures 0.0 <= v
  {
    var inteira, decimal := s[..PrimeiroPonto(s)], ParteDecimal(s);
    DigitosMontante(s);
    ValorPartes(inteira, decimal);
    DigitsValue(inteira) as real + Escala(DigitsValue(decimal) as real, |decimal|)
  }

  /** `toDoubleOrNull`, on the texts that reach it. */
  function ParseMontante(s: string): (r: Option<real>)
    ensures r.Some? <==> FormatoMontante(s)
    ensures r.Some? ==> Denota(s, r.value) && 0.0 <= r.value
  {
    if FormatoMontante(s) then Some(ValorMontante(s)) else None
  }

  /** Dropping the decimal point of an accepted amount leaves its digits. */
  lemma DigitosMontante(s: string)
    requires FormatoMontante(s)
    ensures AllDigits(s[..PrimeiroPonto(s)]) && AllDigits(ParteDecimal(s))
    ensures FilterDigits(s) == s[..PrimeiroPonto(s)] + ParteDecimal(s)
  {
    var k := PrimeiroPonto(s);
    if k == |s| {
      assert s[..k] + [] == s;
      FilterDigitsFixpoint(s);
    } else {
      assert s == (s[..k] + ['.']) + s[k + 1..];
      DigitosComPonto(s[..k], s[k + 1..]);
    }
  }

  lemma DigitosComPonto(a: string, b: string)
    requires AllDigits(a) && AllDigits(b)
    ensures FilterDigits((a + ['.']) + b) == a + b
  {
    FilterDigitsConcat(a + ['.'], b);
    FilterDigitsConcat(a, ['.']);
    assert FilterDigits(['.']) == [];
    FilterDigitsFixpoint(a);
    FilterDigitsFixpoint(b);
  }

  /** `x` divided by ten `n` times. */
  function Escala(x: real, n: nat): real
    decreases n
  {
    if n == 0 then x else Escala(x / 10.0, n - 1)
  }

  /** An integer part and a fractional part, read as one decimal number. */
  lemma ValorPartes(a: string, b: string)
    requires AllDigits(a) && AllDigits(b)
    ensures AllDigits(a + b)
    ensures var x := DigitsValue(a) as real;
            var v := x + Escala(DigitsValue(b) as real, |b|);
            v == Escala(DigitsValue(a + b) as real, |b|) && x <= v < x + 1.0
  {
    DigitsValueConcat(a, b);
    DigitsValueMenor(b);
    PassoValor(DigitsValue(a + b), DigitsValue(a), DigitsValue(b), |b|);
  }

  lemma PassoValor(ab: int, x: int, y: int, n: nat)
    requires ab == x * Pow10(n) + y && 0 <= y < Pow10(n)
    ensures var v := x as real + Escala(y as real, n);
            v == Escala(ab as real, n) && x as real <= v < x as real + 1.0
  {
    var z := x as real * (Pow10(n) as real);
    ProdutoReal(x, Pow10(n), z);
    assert ab as real == z + y as real;
    EscalaSoma(z, y as real, n);
    EscalaPotencia(x as real, n, z);
    EscalaMenor(y as real, n);
  }

  lemma ProdutoReal(x: int, p: int, z: real)
    requires z == x as real * p as real
    ensures (x * p) as real == z
  {
  }

  /** Dividing by ten distributes over a sum. */
  lemma {:induction false} EscalaSoma(a: real, b: real, n: nat)
    ensures Escala(a + b, n) == Escala(a, n) + Escala(b, n)
    decreases n
  {
    if n > 0 {
      assert (a + b) / 10.0 == a / 10.0 + b / 10.0;
      EscalaSoma(a / 10.0, b / 10.0, n - 1);
    }
  }

  /** Dividing by ten `n` times undoes multiplying by `10^n`. */
  lemma {:induction false} EscalaPotencia(x: real, n: nat, z: real)
    requires z == x * (Pow10(n) as real)
    ensures Escala(z, n) == x
    decreases n
  {
    if n > 0 {
      assert Pow10(n) as real == 10.0 * (Pow10(n - 1) as real);
      EscalaPotencia(x, n - 1, z / 10.0);
    }
  }

  /** Below `10^n`, `n` divisions by ten land below one. */
  lemma {:induction false} EscalaMenor(y: real, n: nat)
    requires 0.0 <= y < Pow10(n) as real
    ensures 0.0 <= Escala(y, n) < 1.0
    decreases n
  {
    if n > 0 {
      assert Pow10(n) as real == 10.0 * Pow10(n - 1) as real;
      EscalaMenor(y / 10.0, n - 1);
    }
  }

  lemma FormatoNaoEmBranco(t: string)
    requires FormatoMontante(Normalizar(t))
    ensures !IsBlank(t)
  {
    var n := Normalizar(t);
    assert IsDigit(n[..PrimeiroPonto(n)][0]);
  }

  /** `validarMontante`: the first failing check, in source order. */
  function ValidarMontante(texto: string): (r: Option<Erro>)
    ensures r == Some(Obrigatorio) <==> IsBlank(Trim(texto))
    ensures r == Some(FormatoMontanteInvalido) <==>
            !IsBlank(Trim(texto)) && !FormatoMontante(Normalizar(Trim(texto)))
    ensures r != Some(ValorInvalido)
    ensures r == Some(NaoPositivo) <==>
            ParseMontante(Normalizar(Trim(texto))).Some? && ParseMontante(Normalizar(Trim(texto))).value <= 0.0
    ensures r == Some(MontanteAbaixoMinimo) <==>
            ParseMontante(Normalizar(Trim(texto))).Some? && 0.0 < ParseMontante(Normalizar(Trim(texto))).value < MontanteMinimo
    ensures r == Some(MontanteAcimaMaximo) <==>
            ParseMontante(Normalizar(Trim(texto))).Some? && ParseMontante(Normalizar(Trim(texto))).value > MontanteMaximo
    ensures r == None <==>
            ParseMontante(Normalizar(Trim(texto))).Some? &&
            MontanteMinimo <= ParseMontante(Normalizar(Trim(texto))).value <= MontanteMaximo
  {
    var t := Trim(texto);
    if IsBlank(t) then Some(Obrigatorio)
    else
      var normalizado := Normalizar(t);
      if !FormatoMontante(normalizado) then Some(FormatoMontanteInvalido)
      else
        FormatoNaoEmBranco(t);
        match ParseMontante(normalizado)
        case None => Some(ValorInvalido)
        case Some(v) =>
          if v <= 0.0 then Some(NaoPositivo)
          else if v < MontanteMinimo then Some(MontanteAbaixoMinimo)
          else if v > MontanteMaximo then Some(MontanteAcimaMaximo)
          else None
  }

  // ---------------------------------------------------------------------
  // `validarMeses`.

  /** `validarMeses`: the first failing check, in source order. */
  function ValidarMeses(texto: string): (r: Option<Erro>)
    ensures r == Some(Obrigatorio) <==> IsBlank(texto)
    ensures r == Some(ValorInvalido) <==> !IsBlank(texto) && ToIntOrNull(texto).None?
    ensures r == Some(PrazoAbaixoMinimo) <==> ToIntOrNull(texto).Some? && ToIntOrNull(texto).value <= 0
    ensures r == Some(PrazoAcimaMaximo) <==> ToIntOrNull(texto).Some? && ToIntOrNull(texto).value > PrazoMaximo
    ensures r == None <==> ToIntOrNull(texto).Some? && 1 <= ToIntOrNull(texto).value <= PrazoMaximo
  {
    if IsBlank(texto) then Some(Obrigatorio)
    else
      match ToIntOrNull(texto)
      case None => Some(ValorInvalido)
      case Some(v) =>
        if v <= 0 then Some(PrazoAbaixoMinimo)
        else if v > PrazoMaximo then Some(PrazoAcimaMaximo)
        else None
  }

  /** On a digits-only term text: accepted exactly for the values 1..84. */
  lemma ValidarMesesDigitos(texto: string)
    requires AllDigits(texto)
    ensures ValidarMeses(texto) == None <==> texto != [] && 1 <= DigitsValue(texto) <= PrazoMaximo
    ensures texto != [] && DigitsValue(texto) > MaxInt ==> ValidarMeses(texto) == Some(ValorInvalido)
  {
    if texto != [] {
      assert !IsWhitespace(texto[0]);
    }
  }

  // ---------------------------------------------------------------------
  // `calcularTaxaAnual`.

  /** The estimated annual rate in percent and its breakdown. */
  function CalcularTaxaAnual(montante: real, meses: int): (r: (real, DetalheTaxa))
    ensures r.1.taxaBase == TaxaBase
    ensures r.0 == r.1.taxaBase + r.1.ajusteMontante + r.1.ajustePrazo
    ensures r.1.ajusteMontante == 3.0 <==> montante < 5000.0
    ensures r.1.ajusteMontante == 2.0 <==> 5000.0 <= montante <= 15000.0
    ensures r.1.ajusteMontante == 1.0 <==> montante > 15000.0
    ensures r.1.ajustePrazo == 1.0 <==> meses <= 24
    ensures r.1.ajustePrazo == 2.0 <==> 24 < meses <= 60
    ensures r.1.ajustePrazo == 3.0 <==> meses > 60
    ensures 8.0 <= r.0 <= 12.0
  {
    var ajusteMontante :=
      if montante < 5000.0 then 3.0
      else if montante <= 15000.0 then 2.0
      else 1.0;
    var ajustePrazo :=
      if meses <= 24 then 1.0
      else if meses <= 60 then 2.0
      else 3.0;
    (TaxaBase + ajusteMontante + ajustePrazo, DetalheTaxa(TaxaBase, ajusteMontante, ajustePrazo))
  }

  /** A larger amount never raises the rate. */
  lemma TaxaNaoCresceComMontante(m1: real, m2: real, meses: int)
    requires m1 <= m2
    ensures CalcularTaxaAnual(m2, meses).0 <= CalcularTaxaAnual(m1, meses).0
  {
  }

  /** A longer term never lowers the rate. */
  lemma TaxaNaoDiminuiComPrazo(montante: real, n1: int, n2: int)
    requires n1 <= n2
    ensures CalcularTaxaAnual(montante, n1).0 <= CalcularTaxaAnual(montante, n2).0
  {
  }

  lemma ExemplosTaxa()
    ensures CalcularTaxaAnual(10000.0, 60) == (10.0, DetalheTaxa(6.0, 2.0, 2.0))
    ensures CalcularTaxaAnual(3000.0, 12) == (10.0, DetalheTaxa(6.0, 3.0, 1.0))
    ensures CalcularTaxaAnual(75000.0, 84) == (10.0, DetalheTaxa(6.0, 1.0, 3.0))
  {
  }

  // ---------------------------------------------------------------------
  // Validation examples.

  lemma ExemploMontanteVazio()
    ensures ValidarMontante("") == Some(Obrigatorio)
  {
  }

  /** A plain run of digits is its own trimmed, normalized form and denotes its decimal value. */
  lemma MontanteInteiro(s: string)
    requires s != [] && AllDigits(s)
    ensures Trim(s) == s && Normalizar(s) == s
    ensures ParseMontante(s) == Some(DigitsValue(s) as real)
  {
    TrimNoWhitespace(s);
    ReplaceAbsent(s, ',', '.');
    PrimeiroPontoUnico(s, |s|);
    assert s[..|s|] == s;
    FilterDigitsFixpoint(s);
    assert Decimais(s) == 0;
  }

  /** Once the cleaned text parses, only the range checks decide. */
  lemma ValidarMontanteValor(texto: string, t: string, v: real)
    requires Normalizar(Trim(texto)) == t && ParseMontante(t) == Some(v)
    ensures ValidarMontante(texto) ==
              if v <= 0.0 then Some(NaoPositivo)
              else if v < MontanteMinimo then Some(MontanteAbaixoMinimo)
              else if v > MontanteMaximo then Some(MontanteAcimaMaximo)
              else None
  {
  }

  lemma Valor400()
    ensures DigitsValue("400") == 400
  {
    assert "400"[..2] == "40" && "40"[..1] == "4" && "4"[..0] == "";
  }

  lemma Valor80000()
    ensures DigitsValue("80000") == 80000
  {
    assert "80000"[..4] == "8000" && "8000"[..3] == "800" && "800"[..2] == "80";
    assert "80"[..1] == "8" && "8"[..0] == "";
  }

  lemma ExemploMontanteBaixo()
    ensures ValidarMontante("400") == Some(MontanteAbaixoMinimo)
  {
    MontanteInteiro("400");
    Valor400();
    ValidarMontanteValor("400", "400", 400.0);
  }

  lemma ExemploMontanteAlto()
    ensures ValidarMontante("80000") == Some(MontanteAcimaMaximo)
  {
    MontanteInteiro("80000");
    Valor80000();
    ValidarMontanteValor("80000", "80000", 80000.0);
  }

  lemma ExemploMontanteTresCasas()
    ensures ValidarMontante("12.345") == Some(FormatoMontanteInvalido)
  {
    TrimNoWhitespace("12.345");
    ReplaceAbsent("12.345", ',', '.');
    PrimeiroPontoUnico("12.345", 2);
    assert "12.345"[3..] == "345";
  }

  lemma Valor1000()
    ensures DigitsValue("1000") == 1000
  {
    assert "1000"[..3] == "100" && "100"[..2] == "10" && "10"[..1] == "1" && "1"[..0] == "";
  }

  /** "1000.5" parses to 1000.5. */
  lemma ParseMilEMeio()
    ensures ParseMontante("1000.5") == Some(1000.5)
  {
    PrimeiroPontoUnico("1000.5", 4);
    assert "1000.5"[..4] == "1000";
    assert "1000.5"[5..] == "5";
    Valor1000();
    assert "5"[..0] == "";
    assert Escala(5.0, 1) == 0.5;
  }

  /** A decimal point is accepted. */
  lemma ExemploMontantePonto()
    ensures ValidarMontante("1000.5") == None
  {
    TrimNoWhitespace("1000.5");
    ReplaceAbsent("1000.5", ',', '.');
    ParseMilEMeio();
    ValidarMontanteValor("1000.5", "1000.5", 1000.5);
  }

  /** A decimal comma is accepted and read as a decimal point. */
  lemma ExemploMontanteVirgula()
    ensures ValidarMontante("1000,5") == None
    ensures ParseMontante(Normalizar("1000,5")) == Some(1000.5)
  {
    TrimNoWhitespace("1000,5");
    assert Normalizar("1000,5") == "1000.5";
    ParseMilEMeio();
    ValidarMontanteValor("1000,5", "1000.5", 1000.5);
  }

  lemma ExemplosMeses()
    ensures ValidarMeses("") == Some(Obrigatorio)
    ensures ValidarMeses("0") == Some(PrazoAbaixoMinimo)
    ensures ValidarMeses("90") == Some(PrazoAcimaMaximo)
    ensures ValidarMeses("12") == None
  {
  }

  // ---------------------------------------------------------------------
  // From validated texts to a loan.

  /** An amount text that passes its validator parses to an in-range amount. */
  lemma MontanteValidado(montanteText: string)
    requires FormaFiltrada(montanteText) && ValidarMontante(montanteText).None?
    ensures ParseMontante(Normalizar(montanteText)).Some?
    ensures MontanteMinimo <= ParseMontante(Normalizar(montanteText)).value <= MontanteMaximo
  {
    TrimNoWhitespace(montanteText);
  }

  /** Texts that pass both validators parse to an in-range amount and term,
      and the loan computation then succeeds with positive interest. */
  lemma EntradasValidasCalculam(montanteText: string, mesesText: string)
    requires FormaFiltrada(montanteText)
    requires ValidarMontante(montanteText).None? && ValidarMeses(mesesText).None?
    ensures ParseMontante(Normalizar(montanteText)).Some?
    ensures MontanteMinimo <= ParseMontante(Normalizar(montanteText)).value <= MontanteMaximo
    ensures ToIntOrNull(mesesText).Some? && 1 <= ToIntOrNull(mesesText).value <= PrazoMaximo
    ensures var m, n := ParseMontante(Normalizar(montanteText)).value, ToIntOrNull(mesesText).value;
            var r := Calcular(m, CalcularTaxaAnual(m, n).0, n);
            r.Ok? && r.value.totalJuros > 0.0 && r.value.prestacaoMensal > m / n as real
  {
    MontanteValidado(montanteText);
    var m, n := ParseMontante(Normalizar(montanteText)).value, ToIntOrNull(mesesText).value;
    CalcularComJuros(m, CalcularTaxaAnual(m, n).0, n);
  }

  /** What a state showing a result must hold: the result is the loan for the
      parsed texts at the estimated rate, and the rate and its breakdown are shown. */
  predicate ResultadoCoerente(s: SimulacaoUiState) {
    s.montanteErro.None? && s.mesesErro.None? &&
    ValidarMontante(s.montanteText).None? && ValidarMeses(s.mesesText).None? &&
    ParseMontante(Normalizar(s.montanteText)).Some? && ToIntOrNull(s.mesesText).Some? &&
    var m, n := ParseMontante(Normalizar(s.montanteText)).value, ToIntOrNull(s.mesesText).value;
    var taxa := CalcularTaxaAnual(m, n);
    Calcular(m, taxa.0, n).Ok? &&
    s.taxaCalculada == Some(taxa.0) && s.detalheTaxa == Some(taxa.1) &&
    s.resultado == Some(Calcular(m, taxa.0, n).value)
  }

  /** The invariant of the view-model's state. */
  predicate EstadoValido(s: SimulacaoUiState) {
    FormaFiltrada(s.montanteText) && AllDigits(s.mesesText) && !s.mostrarDetalheTaxa &&
    (s.resultado.None? ==> s.taxaCalculada.None? && s.detalheTaxa.None?) &&
    (s.resultado.Some? ==> ResultadoCoerente(s))
  }

  /** A shown result is a well-formed simulation: amount and term within the
      accepted ranges, rate within 8..12%, positive interest and a payment
      above the interest-free one. */
  lemma ResultadoMostrado(s: SimulacaoUiState)
    requires EstadoValido(s) && s.resultado.Some?
    ensures s.PodeSimular()
    ensures ParseMontante(Normalizar(s.montanteText)).Some? && ToIntOrNull(s.mesesText).Some?
    ensures MontanteMinimo <= ParseMontante(Normalizar(s.montanteText)).value <= MontanteMaximo
    ensures 1 <= ToIntOrNull(s.mesesText).value <= PrazoMaximo
    ensures s.taxaCalculada.Some? && 8.0 <= s.taxaCalculada.value <= 12.0
    ensures s.resultado.value.totalJuros > 0.0
    ensures s.resultado.value.prestacaoMensal > ParseMontante(Normalizar(s.montanteText)).value / ToIntOrNull(s.mesesText).value as real
  {
    EntradasValidasCalculam(s.montanteText, s.mesesText);
    var m, n := ParseMontante(Normalizar(s.montanteText)).value, ToIntOrNull(s.mesesText).value;
    var taxa := CalcularTaxaAnual(m, n);
    assert s.resultado.value == Calcular(m, taxa.0, n).value && s.taxaCalculada == Some(taxa.0);
    assert !IsBlank(s.montanteText) && !IsBlank(s.mesesText);
  }

  /** `SimulacaoViewModel`: the screen state and the events that change it. */
  class SimulacaoViewModel {
    var uiState: SimulacaoUiState

    ghost predicate Valid()
      reads this
    {
      EstadoValido(uiState)
    }

    constructor()
      ensures uiState == Padrao()
      ensures Valid()
    {
      uiState := Padrao();
    }

    /** The amount field changed: store the filtered text and its validation,
        and drop any simulation shown. */
    method OnMontanteChange(novo: string)
      requires Valid()
      modifies this
      ensures Valid()
      ensures uiState == old(uiState).(
                montanteText := FiltroMontante(Normalizar(novo)),
                montanteErro := ValidarMontante(FiltroMontante(Normalizar(novo))),
                resultado := None, taxaCalculada := None, detalheTaxa := None,
                mostrarDetalheTaxa := false)
    {
      var normalizado := Normalizar(novo);
      var filtrado := FiltrarMontante(normalizado);
      FiltroMontanteForma(normalizado);
      uiState := uiState.(
        montanteText := filtrado,
        montanteErro := ValidarMontante(filtrado),
        resultado := None, taxaCalculada := None, detalheTaxa := None,
        mostrarDetalheTaxa := false);
    }

    /** The term field changed: keep its digits, validate them, and drop any
        simulation shown. */
    method OnMesesChange(novo: string)
      requires Valid()
      modifies this
      ensures Valid()
      ensures uiState == old(uiState).(
                mesesText := FilterDigits(novo),
                mesesErro := ValidarMeses(FilterDigits(novo)),
                resultado := None, taxaCalculada := None, detalheTaxa := None,
                mostrarDetalheTaxa := false)
    {
      var texto := FilterDigits(novo);
      FilterDigitsAllDigits(novo);
      uiState := uiState.(
        mesesText := texto,
        mesesErro := ValidarMeses(texto),
        resultado := None, taxaCalculada := None, detalheTaxa := None,
        mostrarDetalheTaxa := false);
    }

    /** Back to the empty form. */
    method Limpar()
      modifies this
      ensures uiState == Padrao()
      ensures Valid()
    {
      uiState := Padrao();
    }

    /** Validate both fields; when both pass, compute the rate and the loan and
        show them. The early returns after the validation check are proved
        never to fire. */
    method Simular()
      requires Valid()
      modifies this
      ensures Valid()
      ensures uiState.montanteText == old(uiState.montanteText)
      ensures uiState.mesesText == old(uiState.mesesText)
      ensures uiState.montanteErro == ValidarMontante(uiState.montanteText)
      ensures uiState.mesesErro == ValidarMeses(uiState.mesesText)
      ensures uiState.resultado.Some? <==> uiState.montanteErro.None? && uiState.mesesErro.None?
      ensures uiState.resultado.Some? ==> ResultadoCoerente(uiState)
    {
      var montanteErro := ValidarMontante(uiState.montanteText);
      var mesesErro := ValidarMeses(uiState.mesesText);
      uiState := uiState.(
        montanteErro := montanteErro,
        mesesErro := mesesErro,
        resultado := None, taxaCalculada := None, detalheTaxa := None,
        mostrarDetalheTaxa := false);

      if montanteErro.Some? || mesesErro.Some? {
        return;
      }
      EntradasValidasCalculam(uiState.montanteText, uiState.mesesText);
      assert !IsBlank(uiState.montanteText) && !IsBlank(uiState.mesesText);
      assert uiState.PodeSimular();

      var montante := ParseMontante(Normalizar(uiState.montanteText));
      var meses := ToIntOrNull(uiState.mesesText);
      assert montante.Some? && meses.Some?;

      var taxa := CalcularTaxaAnual(montante.value, meses.value);
      var resultado := Calcular(montante.value, taxa.0, meses.value);
      assert resultado.Ok?;

      uiState := uiState.(
        taxaCalculada := Some(taxa.0),
        detalheTaxa := Some(taxa.1),
        mostrarDetalheTaxa := false,
        resultado := Some(resultado.value));
    }
  }
}
