/** The amortization calculator: a fixed-rate, equal-installment loan.
    Money and rates are exact reals; Kotlin's 64-bit `Double` arithmetic
    is not modelled. */
module CalculoEmprestimo {
  import opened Opcoes

  datatype ResultadoEmprestimo = ResultadoEmprestimo(prestacaoMensal: real, totalPago: real, totalJuros: real)

  /** The three `require` guards of `calcular`, in the order they are checked;
      each stands for the `IllegalArgumentException` it throws. */
  datatype ErroArgumento = MontanteNaoPositivo | TaxaNegativa | PrazoNaoPositivo

  function Pow(x: real, n: nat): real {
    if n == 0 then 1.0 else x * Pow(x, n - 1)
  }

  /** Monthly rate as a fraction: the annual percentage over 100, over 12. */
  function TaxaMensal(taxaAnual: real): (i: real)
    ensures i * 1200.0 == taxaAnual
  {
    (taxaAnual / 100.0) / 12.0
  }

  /** The installment: straight-line when the monthly rate is exactly zero,
      otherwise the annuity formula `montante * i * (1+i)^n / ((1+i)^n - 1)`. */
  function Prestacao(montante: real, i: real, meses: nat): real
    requires i >= 0.0 && meses >= 1
  {
    if i == 0.0 then montante / meses as real
    else
      var fator := Pow(1.0 + i, meses);
      PowAboveOne(1.0 + i, meses);
      montante * (i * fator) / (fator - 1.0)
  }

  /** `CalculoEmprestimo.calcular`: the guards, then the installment and the totals. */
  function Calcular(montante: real, taxaAnual: real, meses: int): (r: Result<ResultadoEmprestimo, ErroArgumento>)
    ensures r == Err(MontanteNaoPositivo) <==> montante <= 0.0
    ensures r == Err(TaxaNegativa) <==> montante > 0.0 && taxaAnual < 0.0
    ensures r == Err(PrazoNaoPositivo) <==> montante > 0.0 && taxaAnual >= 0.0 && meses <= 0
    ensures r.Ok? <==> montante > 0.0 && taxaAnual >= 0.0 && meses > 0
    ensures r.Ok? ==> SomaDescontos(Desconto(taxaAnual), meses) > 0.0
    ensures r.Ok? ==> r.value.prestacaoMensal == montante / SomaDescontos(Desconto(taxaAnual), meses)
    ensures r.Ok? ==> r.value.totalPago == r.value.prestacaoMensal * meses as real
    ensures r.Ok? ==> r.value.totalJuros == r.value.totalPago - montante
  {
    if montante <= 0.0 then Err(MontanteNaoPositivo)
    else if taxaAnual < 0.0 then Err(TaxaNegativa)
    else if meses <= 0 then Err(PrazoNaoPositivo)
    else
      var i := TaxaMensal(taxaAnual);
      var prestacaoMensal := Prestacao(montante, i, meses);
      PrestacaoPorDescontos(montante, i, meses);
      var totalPago := prestacaoMensal * meses as real;
      Ok(ResultadoEmprestimo(prestacaoMensal, totalPago, totalPago - montante))
  }

  // ---------------------------------------------------------------------
  // Reference definition: the installment is the principal divided by the
  // sum of the monthly discount factors v + v^2 + ... + v^n, v = 1/(1+i).

  /** The monthly discount factor for an annual percentage rate. */
  function Desconto(taxaAnual: real): (v: real)
    requires taxaAnual >= 0.0
    ensures 0.0 < v <= 1.0
    ensures v == 1.0 <==> taxaAnual == 0.0
  {
    1.0 / (1.0 + TaxaMensal(taxaAnual))
  }

  /** `v + v^2 + ... + v^n`. */
  function SomaDescontos(v: real, n: nat): real {
    if n == 0 then 0.0 else v * (1.0 + SomaDescontos(v, n - 1))
  }

  lemma {:induction false} PowAboveOne(x: real, n: nat)
    requires x > 1.0 && n >= 1
    ensures Pow(x, n) > 1.0
  {
    if n > 1 {
      PowAboveOne(x, n - 1);
      assert x * Pow(x, n - 1) > 1.0 * Pow(x, n - 1);
    }
  }

  lemma {:induction false} PowInverso(v: real, x: real, n: nat)
    requires v * x == 1.0
    ensures Pow(v, n) * Pow(x, n) == 1.0
  {
    if n > 0 {
      PowInverso(v, x, n - 1);
      PassoPow(v, x, Pow(v, n - 1), Pow(x, n - 1));
    }
  }

  lemma {:induction false} SomaDescontosPositiva(v: real, n: nat)
    requires v > 0.0
    ensures SomaDescontos(v, n) >= 0.0
    ensures n >= 1 ==> SomaDescontos(v, n) > 0.0
  {
    if n > 0 {
      SomaDescontosPositiva(v, n - 1);
      assert v * (1.0 + SomaDescontos(v, n - 1)) > 0.0;
    }
  }

  lemma {:induction false} SomaDescontosUnitaria(n: nat)
    ensures SomaDescontos(1.0, n) == n as real
  {
    if n > 0 {
      SomaDescontosUnitaria(n - 1);
    }
  }

  /** Closed form of the geometric sum: `(v + ... + v^n) * (1 - v) == v * (1 - v^n)`. */
  lemma {:induction false} SomaDescontosFechada(v: real, n: nat)
    ensures SomaDescontos(v, n) * (1.0 - v) == v * (1.0 - Pow(v, n))
  {
    if n > 0 {
      SomaDescontosFechada(v, n - 1);
      PassoSoma(v, SomaDescontos(v, n - 1), Pow(v, n - 1));
    }
  }

  /** The annuity identity: `(v + ... + v^n) * i * (1+i)^n == (1+i)^n - 1` for `v = 1/(1+i)`. */
  lemma SomaDescontosIdentidade(i: real, n: nat)
    requires i >= 0.0
    ensures SomaDescontos(1.0 / (1.0 + i), n) * (i * Pow(1.0 + i, n)) == Pow(1.0 + i, n) - 1.0
  {
    var x := 1.0 + i;
    var v := 1.0 / x;
    Inverso(x);
    SomaDescontosFechada(v, n);
    PowInverso(v, x, n);
    Conecta(v, x, i, SomaDescontos(v, n), Pow(v, n), Pow(x, n));
  }

  /** Both branches of `Prestacao` agree with the reference definition. */
  lemma PrestacaoPorDescontos(montante: real, i: real, meses: nat)
    requires i >= 0.0 && meses >= 1
    ensures SomaDescontos(1.0 / (1.0 + i), meses) > 0.0
    ensures Prestacao(montante, i, meses) == montante / SomaDescontos(1.0 / (1.0 + i), meses)
  {
    Inverso(1.0 + i);
    SomaDescontosPositiva(1.0 / (1.0 + i), meses);
    if i == 0.0 {
      assert 1.0 / (1.0 + i) == 1.0;
      SomaDescontosUnitaria(meses);
    } else {
      PrestacaoAnuidade(montante, i, meses);
    }
  }

  lemma PrestacaoAnuidade(montante: real, i: real, meses: nat)
    requires i > 0.0 && meses >= 1
    requires SomaDescontos(1.0 / (1.0 + i), meses) > 0.0
    ensures Prestacao(montante, i, meses) == montante / SomaDescontos(1.0 / (1.0 + i), meses)
  {
    var f := Pow(1.0 + i, meses);
    PowAboveOne(1.0 + i, meses);
    SomaDescontosIdentidade(i, meses);
    QuocienteComum(montante, i * f, f - 1.0, SomaDescontos(1.0 / (1.0 + i), meses));
  }

  /** A larger discount factor gives a larger sum. */
  lemma {:induction false} SomaDescontosCresceComDesconto(v1: real, v2: real, n: nat)
    requires 0.0 < v1 < v2
    ensures SomaDescontos(v1, n) <= SomaDescontos(v2, n)
    ensures n >= 1 ==> SomaDescontos(v1, n) < SomaDescontos(v2, n)
  {
    if n > 0 {
      var a, b := SomaDescontos(v1, n - 1), SomaDescontos(v2, n - 1);
      SomaDescontosCresceComDesconto(v1, v2, n - 1);
      SomaDescontosPositiva(v1, n - 1);
      PassoMonotono(v1, v2, a, b);
      assert SomaDescontos(v1, n) == v1 * (1.0 + a);
      assert SomaDescontos(v2, n) == v2 * (1.0 + b);
    } else {
      assert SomaDescontos(v1, n) == 0.0 == SomaDescontos(v2, n);
    }
  }

  /** One more month adds one more (positive) discount factor. */
  lemma {:induction false} SomaDescontosCresceComPrazo(v: real, n: nat)
    requires v > 0.0
    ensures SomaDescontos(v, n) < SomaDescontos(v, n + 1)
  {
    if n > 0 {
      SomaDescontosCresceComPrazo(v, n - 1);
      SomaDescontosPositiva(v, n - 1);
      PassoMonotono(v, v, SomaDescontos(v, n - 1), SomaDescontos(v, n));
    }
  }

  lemma {:induction false} SomaDescontosCresceEntrePrazos(v: real, n1: nat, n2: nat)
    requires v > 0.0 && n1 < n2
    ensures SomaDescontos(v, n1) < SomaDescontos(v, n2)
  {
    SomaDescontosCresceComPrazo(v, n2 - 1);
    if n1 < n2 - 1 {
      SomaDescontosCresceEntrePrazos(v, n1, n2 - 1);
    }
  }

  /** Below a unit discount factor, each new factor `v^(n+1)` is below one. */
  lemma {:induction false} SomaDescontosIncremento(v: real, n: nat)
    requires 0.0 < v < 1.0
    ensures SomaDescontos(v, n + 1) - SomaDescontos(v, n) < 1.0
  {
    if n > 0 {
      SomaDescontosIncremento(v, n - 1);
      PassoIncremento(v, SomaDescontos(v, n - 1), SomaDescontos(v, n));
    }
  }

  /** Below a unit discount factor, the sum of `n` factors is below `n`. */
  lemma {:induction false} SomaDescontosMenorQuePrazo(v: real, n: nat)
    requires 0.0 < v < 1.0 && n >= 1
    ensures SomaDescontos(v, n) < n as real
  {
    SomaDescontosPositiva(v, n - 1);
    if n > 1 {
      SomaDescontosMenorQuePrazo(v, n - 1);
    }
    PassoMenor(v, SomaDescontos(v, n - 1));
  }

  /** The mean discount factor falls as the term grows:
      `n * S(n+1) < (n+1) * S(n)`. */
  lemma {:induction false} SomaDescontosMediaDecresce(v: real, n: nat)
    requires 0.0 < v < 1.0 && n >= 1
    ensures (n as real) * SomaDescontos(v, n + 1) < (n as real + 1.0) * SomaDescontos(v, n)
  {
    var k := n as real;
    var b, c := SomaDescontos(v, n), SomaDescontos(v, n + 1);
    if n == 1 {
      assert b == v;
      assert c == v * (1.0 + v);
      PassoMediaBase(v);
      assert k == 1.0;
    } else {
      var m := n - 1;
      var a := SomaDescontos(v, m);
      SomaDescontosMediaDecresce(v, m);
      assert (m as real) * b < (m as real + 1.0) * a;
      assert m as real == k - 1.0 && m as real + 1.0 == k;
      assert (k - 1.0) * b < k * a;
      SomaDescontosIncremento(v, m);
      PassoMedia(v, k, a, b, c);
    }
  }

  /** `n / S(n)`, the total repaid per unit of principal, grows with the term. */
  lemma {:induction false} RazaoPrazoCresce(v: real, n1: nat, n2: nat)
    requires 0.0 < v < 1.0 && 1 <= n1 < n2
    ensures SomaDescontos(v, n1) > 0.0 && SomaDescontos(v, n2) > 0.0
    ensures (n1 as real) / SomaDescontos(v, n1) < (n2 as real) / SomaDescontos(v, n2)
  {
    var m := n2 - 1;
    SomaDescontosPositiva(v, n1);
    SomaDescontosPositiva(v, m);
    SomaDescontosPositiva(v, n2);
    SomaDescontosMediaDecresce(v, m);
    assert m as real + 1.0 == n2 as real;
    PassoRazao(m as real, SomaDescontos(v, m), SomaDescontos(v, n2));
    if n1 < m {
      RazaoPrazoCresce(v, n1, m);
    }
  }

  /** A higher annual rate gives a smaller discount factor. */
  lemma DescontoDecresce(t1: real, t2: real)
    requires 0.0 <= t1 < t2
    ensures Desconto(t2) < Desconto(t1)
  {
    PassoInverso(1.0 + TaxaMensal(t1), 1.0 + TaxaMensal(t2));
  }

  lemma SomaDescontosDecresceComTaxa(t1: real, t2: real, n: nat)
    requires 0.0 <= t1 < t2 && n >= 1
    ensures 0.0 < SomaDescontos(Desconto(t2), n) < SomaDescontos(Desconto(t1), n)
  {
    var v1, v2 := Desconto(t1), Desconto(t2);
    DescontoDecresce(t1, t2);
    SomaDescontosPositiva(v2, n);
    SomaDescontosCresceComDesconto(v2, v1, n);
  }

  // ---------------------------------------------------------------------
  // The properties the test-suite checks, for every input.

  /** Zero rate: straight-line installment, principal repaid exactly, no interest. */
  lemma CalcularSemJuros(montante: real, meses: int)
    requires montante > 0.0 && meses > 0
    ensures Calcular(montante, 0.0, meses) == Ok(ResultadoEmprestimo(montante / meses as real, montante, 0.0))
  {
    var r := Calcular(montante, 0.0, meses).value;
    assert Desconto(0.0) == 1.0;
    SomaDescontosUnitaria(meses);
    assert r.prestacaoMensal == montante / meses as real;
    PassoDivisao(montante, meses as real);
    assert r.totalPago == montante;
  }

  /** Positive rate: the installment exceeds `montante / meses`, so there is interest. */
  lemma CalcularComJuros(montante: real, taxaAnual: real, meses: int)
    requires montante > 0.0 && taxaAnual > 0.0 && meses > 0
    ensures Calcular(montante, taxaAnual, meses).Ok?
    ensures Calcular(montante, taxaAnual, meses).value.prestacaoMensal > montante / meses as real
    ensures Calcular(montante, taxaAnual, meses).value.totalJuros > 0.0
  {
    var r := Calcular(montante, taxaAnual, meses).value;
    var v := Desconto(taxaAnual);
    var s := SomaDescontos(v, meses);
    SomaDescontosPositiva(v, meses);
    SomaDescontosMenorQuePrazo(v, meses);
    assert r.prestacaoMensal == montante / s;
    assert r.totalPago == r.prestacaoMensal * meses as real;
    PassoDivisaoMenor(montante, s, meses as real);
  }

  /** A non-negative rate never yields negative interest. */
  lemma JurosNaoNegativos(montante: real, taxaAnual: real, meses: int)
    requires Calcular(montante, taxaAnual, meses).Ok?
    ensures Calcular(montante, taxaAnual, meses).value.totalJuros >= 0.0
  {
    if taxaAnual == 0.0 {
      CalcularSemJuros(montante, meses);
    } else {
      CalcularComJuros(montante, taxaAnual, meses);
    }
  }

  /** Principal and term fixed: a higher rate gives a higher installment. */
  lemma PrestacaoCresceComTaxa(montante: real, t1: real, t2: real, meses: int)
    requires montante > 0.0 && 0.0 <= t1 < t2 && meses > 0
    ensures Calcular(montante, t1, meses).Ok? && Calcular(montante, t2, meses).Ok?
    ensures Calcular(montante, t1, meses).value.prestacaoMensal < Calcular(montante, t2, meses).value.prestacaoMensal
  {
    var s1, s2 := SomaDescontos(Desconto(t1), meses), SomaDescontos(Desconto(t2), meses);
    SomaDescontosDecresceComTaxa(t1, t2, meses);
    PassoDivisaoCresce(montante, s2, s1);
  }

  /** Principal and term fixed: a higher rate gives a higher total repaid. */
  lemma TotalPagoCresceComTaxa(montante: real, t1: real, t2: real, meses: int)
    requires montante > 0.0 && 0.0 <= t1 < t2 && meses > 0
    ensures Calcular(montante, t1, meses).Ok? && Calcular(montante, t2, meses).Ok?
    ensures Calcular(montante, t1, meses).value.totalPago < Calcular(montante, t2, meses).value.totalPago
  {
    var r1, r2 := Calcular(montante, t1, meses).value, Calcular(montante, t2, meses).value;
    PrestacaoCresceComTaxa(montante, t1, t2, meses);
    MulMenor(meses as real, r1.prestacaoMensal, r2.prestacaoMensal);
  }

  /** Principal and rate fixed: a longer term gives a lower installment. */
  lemma PrestacaoDiminuiComPrazo(montante: real, taxaAnual: real, n1: int, n2: int)
    requires montante > 0.0 && taxaAnual >= 0.0 && 0 < n1 < n2
    ensures Calcular(montante, taxaAnual, n1).Ok? && Calcular(montante, taxaAnual, n2).Ok?
    ensures Calcular(montante, taxaAnual, n2).value.prestacaoMensal < Calcular(montante, taxaAnual, n1).value.prestacaoMensal
  {
    var r1, r2 := Calcular(montante, taxaAnual, n1).value, Calcular(montante, taxaAnual, n2).value;
    var v := Desconto(taxaAnual);
    var s1, s2 := SomaDescontos(v, n1), SomaDescontos(v, n2);
    SomaDescontosPositiva(v, n1);
    SomaDescontosCresceEntrePrazos(v, n1, n2);
    PassoDivisaoCresce(montante, s1, s2);
  }

  /** Principal and a positive rate fixed: a longer term gives more total interest. */
  lemma JurosCrescemComPrazo(montante: real, taxaAnual: real, n1: int, n2: int)
    requires montante > 0.0 && taxaAnual > 0.0 && 0 < n1 < n2
    ensures Calcular(montante, taxaAnual, n1).Ok? && Calcular(montante, taxaAnual, n2).Ok?
    ensures Calcular(montante, taxaAnual, n1).value.totalJuros < Calcular(montante, taxaAnual, n2).value.totalJuros
  {
    var r1, r2 := Calcular(montante, taxaAnual, n1).value, Calcular(montante, taxaAnual, n2).value;
    var v := Desconto(taxaAnual);
    var s1, s2 := SomaDescontos(v, n1), SomaDescontos(v, n2);
    RazaoPrazoCresce(v, n1, n2);
    assert r1.prestacaoMensal == montante / s1 && r2.prestacaoMensal == montante / s2;
    assert r1.totalPago == r1.prestacaoMensal * n1 as real;
    assert r2.totalPago == r2.prestacaoMensal * n2 as real;
    PassoTotal(montante, s1, n1 as real, s2, n2 as real);
  }

  /** The scenarios `(1200, 0 %, 12)` and `(5000, 0 %, 1)`. */
  lemma ExemplosSemJuros()
    ensures Calcular(1200.0, 0.0, 12) == Ok(ResultadoEmprestimo(100.0, 1200.0, 0.0))
    ensures Calcular(5000.0, 0.0, 1) == Ok(ResultadoEmprestimo(5000.0, 5000.0, 0.0))
  {
    CalcularSemJuros(1200.0, 12);
    CalcularSemJuros(5000.0, 1);
  }

  /** The guards of `calcular`, one failing input each. */
  lemma ExemplosGuardas()
    ensures Calcular(0.0, 10.0, 12) == Err(MontanteNaoPositivo)
    ensures Calcular(-1.0, 10.0, 12) == Err(MontanteNaoPositivo)
    ensures Calcular(1000.0, 10.0, 0) == Err(PrazoNaoPositivo)
    ensures Calcular(1000.0, 10.0, -5) == Err(PrazoNaoPositivo)
    ensures Calcular(1000.0, -1.0, 12) == Err(TaxaNegativa)
  {
  }

  // ---------------------------------------------------------------------
  // Steps on plain reals, kept apart so that the solver sees no recursive
  // definitions beside the non-linear arithmetic.

  lemma Inverso(x: real)
    requires x > 0.0
    ensures (1.0 / x) * x == 1.0 && 1.0 / x > 0.0
  {
  }

  lemma PassoPow(v: real, x: real, a: real, b: real)
    requires v * x == 1.0 && a * b == 1.0
    ensures (v * a) * (x * b) == 1.0
  {
    assert (v * a) * (x * b) == (v * x) * (a * b);
  }

  lemma PassoSoma(v: real, s: real, q: real)
    requires s * (1.0 - v) == v * (1.0 - q)
    ensures v * (1.0 + s) * (1.0 - v) == v * (1.0 - v * q)
  {
    assert v * (1.0 + s) * (1.0 - v) == v * (1.0 - v) + v * (s * (1.0 - v));
  }

  lemma Conecta(v: real, x: real, i: real, s: real, q: real, f: real)
    requires v > 0.0 && v * x == 1.0 && x == 1.0 + i
    requires s * (1.0 - v) == v * (1.0 - q) && q * f == 1.0
    ensures s * (i * f) == f - 1.0
  {
    assert 1.0 - v == v * i;
    assert v * (s * i) == v * (1.0 - q);
    assert s * i == 1.0 - q;
    assert s * (i * f) == (s * i) * f;
  }

  lemma PassoMonotono(v1: real, v2: real, a: real, b: real)
    requires 0.0 < v1 <= v2 && 0.0 <= a <= b && (v1 < v2 || a < b)
    ensures v1 * (1.0 + a) < v2 * (1.0 + b)
  {
    assert v1 * (1.0 + a) <= v2 * (1.0 + a);
    assert v2 * (1.0 + a) <= v2 * (1.0 + b);
  }

  lemma PassoIncremento(v: real, a: real, b: real)
    requires 0.0 < v < 1.0 && b - a < 1.0
    ensures v * (1.0 + b) - v * (1.0 + a) < 1.0
  {
    var d := b - a;
    assert v * (1.0 + b) == v + v * b;
    assert v * (1.0 + a) == v + v * a;
    assert v * b - v * a == v * d;
    if d > 0.0 {
      MulMenor(d, v, 1.0);
    }
    assert v * d < 1.0;
  }

  lemma PassoMenor(v: real, a: real)
    requires 0.0 < v < 1.0 && a >= 0.0
    ensures v * (1.0 + a) < 1.0 + a
  {
  }

  lemma PassoMedia(v: real, n: real, a: real, b: real, c: real)
    requires v > 0.0 && (n - 1.0) * b < n * a && b - a < 1.0
    requires b == v * (1.0 + a) && c == v * (1.0 + b)
    ensures n * c < (n + 1.0) * b
  {
    PassoMediaLinear(n, a, b);
    MulMenor(v, n * b, 1.0 + (n + 1.0) * a);
    PassoMediaIdentidades(v, n, a, b);
  }

  lemma PassoMediaLinear(n: real, a: real, b: real)
    requires (n - 1.0) * b < n * a && b - a < 1.0
    ensures n * b < 1.0 + (n + 1.0) * a
  {
    assert n * b - (n + 1.0) * a == (n - 1.0) * b - n * a + (b - a);
  }

  lemma PassoMediaIdentidades(v: real, n: real, a: real, b: real)
    ensures n * (v * (1.0 + b)) == v * n + v * (n * b)
    ensures (n + 1.0) * (v * (1.0 + a)) == v * n + v * (1.0 + (n + 1.0) * a)
  {
  }

  lemma PassoMediaBase(v: real)
    requires 0.0 < v < 1.0
    ensures 1.0 * (v * (1.0 + v)) < 2.0 * v
  {
    MulMenor(v, v, 1.0);
  }

  lemma MulMenor(v: real, a: real, b: real)
    requires v > 0.0 && a < b
    ensures v * a < v * b
  {
  }

  lemma PassoRazao(n: real, b: real, c: real)
    requires n >= 1.0 && b > 0.0 && c > 0.0 && n * c < (n + 1.0) * b
    ensures n / b < (n + 1.0) / c
  {
    assert n / b == (n * c) / (b * c);
    assert (n + 1.0) / c == ((n + 1.0) * b) / (b * c);
  }

  lemma PassoInverso(x1: real, x2: real)
    requires 1.0 <= x1 < x2
    ensures 1.0 / x2 < 1.0 / x1
  {
    var y1, y2 := 1.0 / x1, 1.0 / x2;
    assert y1 * x1 == 1.0 && y2 * x2 == 1.0;
    assert y1 > 0.0 && y2 > 0.0;
    var p := y1 * y2;
    assert p * x2 == y1 * (y2 * x2);
    assert p * x1 == y2 * (y1 * x1);
    assert p > 0.0;
    assert p * (x2 - x1) > 0.0;
    assert y1 - y2 == p * (x2 - x1);
  }

  lemma PassoDivisao(m: real, n: real)
    requires n > 0.0
    ensures m / n * n == m
  {
  }

  lemma PassoDivisaoMenor(m: real, s: real, n: real)
    requires m > 0.0 && 0.0 < s < n
    ensures m / s > m / n && m / s * n > m
  {
    assert m / s * s == m;
    assert m / s * n > m / s * s;
  }

  lemma PassoDivisaoCresce(m: real, s1: real, s2: real)
    requires m > 0.0 && 0.0 < s1 < s2
    ensures m / s2 < m / s1
  {
    assert m / s1 * s1 == m && m / s2 * s2 == m;
    assert m / s2 * s1 < m / s2 * s2;
  }

  lemma PassoTotal(m: real, s1: real, n1: real, s2: real, n2: real)
    requires m > 0.0 && s1 > 0.0 && s2 > 0.0 && n1 / s1 < n2 / s2
    ensures m / s1 * n1 < m / s2 * n2
  {
    assert m / s1 * n1 == m * (n1 / s1);
    assert m / s2 * n2 == m * (n2 / s2);
    MulMenor(m, n1 / s1, n2 / s2);
  }

  /** `m * a / b == m / s` when `s * a == b`. */
  lemma QuocienteComum(m: real, a: real, b: real, s: real)
    requires b != 0.0 && s != 0.0 && s * a == b
    ensures m * a / b == m / s
  {
    var q := m / s;
    assert q * s == m;
    assert m * a == q * b;
  }
}
