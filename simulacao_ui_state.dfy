/** The immutable snapshot the simulation screen renders. */
module UiState {
  import opened Opcoes
  import opened Texto
  import opened CalculoEmprestimo

  /** The validation messages, one constructor per distinct message text. */
  datatype Erro =
    | Obrigatorio
    | FormatoMontanteInvalido
    | ValorInvalido
    | NaoPositivo
    | MontanteAbaixoMinimo
    | MontanteAcimaMaximo
    | PrazoAbaixoMinimo
    | PrazoAcimaMaximo

  /** The text shown under the field for each error. */
  function Mensagem(e: Erro): (m: string)
    ensures m != [] && m[|m| - 1] == '.'
  {
    match e
    case Obrigatorio => "Obrigatório."
    case FormatoMontanteInvalido => "Use apenas números (até 2 casas decimais)."
    case ValorInvalido => "Valor inválido."
    case NaoPositivo => "Tem de ser maior que 0."
    case MontanteAbaixoMinimo => "Montante mínimo para crédito pessoal: 500€."
    case MontanteAcimaMaximo => "Montante máximo habitual para crédito pessoal: 75 000€."
    case PrazoAbaixoMinimo => "Tem de ser pelo menos 1 mês."
    case PrazoAcimaMaximo => "Prazo acima do habitual para crédito pessoal (máx. 84 meses)."
  }

  /** No two errors show the same text, so an error is known by its message. */
  lemma MensagemInjetiva(e1: Erro, e2: Erro)
    ensures Mensagem(e1) == Mensagem(e2) ==> e1 == e2
  {
  }

  /** The rate breakdown shown to the user: base rate and the two adjustments,
      in percent. It stands for the three-line `detalheTaxa` text. */
  datatype DetalheTaxa = DetalheTaxa(taxaBase: real, ajusteMontante: real, ajustePrazo: real)

  datatype SimulacaoUiState = SimulacaoUiState(
    montanteText: string,
    mesesText: string,
    montanteErro: Option<Erro>,
    mesesErro: Option<Erro>,
    taxaCalculada: Option<real>,
    mostrarDetalheTaxa: bool,
    detalheTaxa: Option<DetalheTaxa>,
    resultado: Option<ResultadoEmprestimo>)
  {
    /** Both fields filled in and neither flagged. */
    predicate PodeSimular() {
      montanteErro.None? && mesesErro.None? && !IsBlank(montanteText) && !IsBlank(mesesText)
    }
  }

  /** `SimulacaoUiState()` with every default. */
  function Padrao(): SimulacaoUiState {
    SimulacaoUiState("", "", None, None, None, false, None, None)
  }

  /** The defaults: empty texts, no errors, no rate, no detail, detail hidden, no result. */
  lemma PadraoVazio()
    ensures Padrao().montanteText == [] && Padrao().mesesText == []
    ensures Padrao().montanteErro.None? && Padrao().mesesErro.None?
    ensures Padrao().taxaCalculada.None? && Padrao().detalheTaxa.None?
    ensures !Padrao().mostrarDetalheTaxa && Padrao().resultado.None?
  {
  }

  /** A fresh form cannot be simulated: its texts are blank. */
  lemma PadraoNaoPodeSimular()
    ensures !Padrao().PodeSimular()
  {
  }

  /** `podeSimular` reads only the two texts and the two errors. */
  lemma PodeSimularSoDependeDosCampos(s: SimulacaoUiState, taxa: Option<real>, mostrar: bool,
                                       detalhe: Option<DetalheTaxa>, resultado: Option<ResultadoEmprestimo>)
    ensures s.(taxaCalculada := taxa, mostrarDetalheTaxa := mostrar, detalheTaxa := detalhe, resultado := resultado).PodeSimular()
            == s.PodeSimular()
  {
  }

  /** `podeSimular` holds exactly when both errors are absent and both texts are non-blank. */
  lemma PodeSimularSse(s: SimulacaoUiState)
    ensures s.PodeSimular() <==>
            s.montanteErro == None && s.mesesErro == None &&
            (exists k :: 0 <= k < |s.montanteText| && !IsWhitespace(s.montanteText[k])) &&
            (exists k :: 0 <= k < |s.mesesText| && !IsWhitespace(s.mesesText[k]))
  {
  }
}
