# Loan simulator core in Dafny

This project models the computational core of an Android personal-loan simulator:

- `CalculoEmprestimo` models the amortization calculator. It has three argument guards, a monthly rate, a payment that is either straight-line or the annuity formula, and the totals.
- `ViewModel` models the simulation view-model. It has:
  - the tiered annual-rate estimator;
  - the amount and term validators;
  - the amount input filter, as a reference function and a loop;
  - the `SimulacaoViewModel` class, whose `uiState` field is reassigned by the four screen events.
- `UiState` models the immutable screen-state record with its defaults and the `podeSimular` getter.
- `Texto` gives the Kotlin string built-ins the core relies on (`trim`, `isBlank`, `replace`, `filter { isDigit }`, `toIntOrNull`) over `seq<char>`.
- `Opcoes` holds `Option` and `Result`.

Money and rates are exact `real`s. The payment is tied to an independent reference quantity, the sum of the monthly discount factors v + v² + … + vⁿ with v = 1/(1+i). At every rate ≥ 0, the payment is the principal divided by that sum. The test suite's claims are proved from this identity:

- zero interest at rate 0;
- a payment above the straight-line one at a positive rate;
- a payment that rises with the rate;
- a payment that falls with the term, and total interest that rises with it.

The class invariant says the following:

- the amount text is always in filtered form and the term text is all digits;
- the rate detail is never shown;
- a displayed result is always the loan computed from the two texts at the estimated rate.

`Simular` is proved never to trip the calculator's guards. Its three early returns after validation (`!podeSimular`, `toDoubleOrNull ?: return`, `toIntOrNull ?: return`) are proved never to fire, so they appear as assertions.

The validators return the error message or null. Each distinct message text is its own `UiState.Erro` constructor, and `UiState.Mensagem` gives the exact text. No two errors share a text. The amount and term validators both use "Obrigatório." and "Valor inválido.", so those two texts are one constructor each.

## Model

| member | source | states |
|---|---|---|
| CalculoEmprestimo.Calcular | app/src/main/java/com/example/simuladoremprestimmos/domain/CalculoEmprestimo.kt:8-30 | Each guard violation gives its own error, checked in source order: amount ≤ 0, then rate < 0, then term ≤ 0. The result is Ok exactly when all three guards hold. The payment is the principal divided by the discount-factor sum, `totalPago` is payment × term, and `totalJuros` is `totalPago` − principal. |
| CalculoEmprestimo.TaxaMensal | app/src/main/java/com/example/simuladoremprestimmos/domain/CalculoEmprestimo.kt:13 | The monthly rate times 1200 is the annual percentage, so it is zero exactly when the annual rate is zero. |
| CalculoEmprestimo.Desconto | app/src/main/java/com/example/simuladoremprestimmos/domain/CalculoEmprestimo.kt:13-15 | The monthly discount factor lies in (0, 1] and equals 1 exactly at annual rate 0, which is the straight-line branch. |
| CalculoEmprestimo.PrestacaoPorDescontos | app/src/main/java/com/example/simuladoremprestimmos/domain/CalculoEmprestimo.kt:15-20 | Both payment branches, straight-line at i = 0 and the annuity formula otherwise, equal the principal over v + … + vⁿ. |
| CalculoEmprestimo.SomaDescontosIdentidade | app/src/main/java/com/example/simuladoremprestimmos/domain/CalculoEmprestimo.kt:18-19 | The discount-factor sum times i·(1+i)ⁿ equals (1+i)ⁿ − 1, the annuity formula's denominator. |
| CalculoEmprestimo.SomaDescontosUnitaria | app/src/main/java/com/example/simuladoremprestimmos/domain/CalculoEmprestimo.kt:15-16 | At factor 1, the sum is the number of months. |
| CalculoEmprestimo.SomaDescontosFechada | app/src/main/java/com/example/simuladoremprestimmos/domain/CalculoEmprestimo.kt:18-19 | The geometric closed form: S·(1−v) = v·(1−vⁿ). |
| CalculoEmprestimo.PowAboveOne | app/src/main/java/com/example/simuladoremprestimmos/domain/CalculoEmprestimo.kt:18-19 | (1+i)ⁿ > 1 for i > 0 and n ≥ 1, so the annuity denominator is never zero. |
| CalculoEmprestimo.PowInverso | app/src/main/java/com/example/simuladoremprestimmos/domain/CalculoEmprestimo.kt:18 | Powers of reciprocals are reciprocal. |
| CalculoEmprestimo.SomaDescontosPositiva | app/src/main/java/com/example/simuladoremprestimmos/domain/CalculoEmprestimo.kt:15-20 | The sum is positive for at least one month, so the payment is well defined. |
| CalculoEmprestimo.SomaDescontosCresceComDesconto | app/src/main/java/com/example/simuladoremprestimmos/domain/CalculoEmprestimo.kt:15-20 | A larger discount factor gives a strictly larger sum. |
| CalculoEmprestimo.SomaDescontosCresceComPrazo | app/src/main/java/com/example/simuladoremprestimmos/domain/CalculoEmprestimo.kt:15-20 | One more month strictly increases the sum. |
| CalculoEmprestimo.SomaDescontosCresceEntrePrazos | app/src/main/java/com/example/simuladoremprestimmos/domain/CalculoEmprestimo.kt:15-20 | A longer term gives a strictly larger sum. |
| CalculoEmprestimo.SomaDescontosIncremento | app/src/main/java/com/example/simuladoremprestimmos/domain/CalculoEmprestimo.kt:17-20 | At a positive rate, each extra month adds less than 1 to the sum. |
| CalculoEmprestimo.SomaDescontosMenorQuePrazo | app/src/main/java/com/example/simuladoremprestimmos/domain/CalculoEmprestimo.kt:17-20 | At a positive rate, the sum is below the number of months. |
| CalculoEmprestimo.SomaDescontosMediaDecresce | app/src/main/java/com/example/simuladoremprestimmos/domain/CalculoEmprestimo.kt:17-20 | At a positive rate, the average factor S(n)/n strictly decreases with n. |
| CalculoEmprestimo.RazaoPrazoCresce | app/src/main/java/com/example/simuladoremprestimmos/domain/CalculoEmprestimo.kt:17-23 | At a positive rate, n/S(n) strictly increases with n. This ratio is total paid per unit of principal. |
| CalculoEmprestimo.DescontoDecresce | app/src/main/java/com/example/simuladoremprestimmos/domain/CalculoEmprestimo.kt:13 | A higher annual rate gives a strictly smaller discount factor. |
| CalculoEmprestimo.SomaDescontosDecresceComTaxa | app/src/main/java/com/example/simuladoremprestimmos/domain/CalculoEmprestimo.kt:13-20 | A higher annual rate gives a strictly smaller, still positive, sum. |
| CalculoEmprestimo.CalcularSemJuros | app/src/test/java/com/example/simuladoremprestimmos/CalculoEmprestimoTest.kt:9-21 | At rate 0 with valid arguments, the result is exactly (montante/meses, montante, 0). |
| CalculoEmprestimo.CalcularComJuros | app/src/test/java/com/example/simuladoremprestimmos/CalculoEmprestimoTest.kt:24-38 | At a positive rate, the call succeeds, the payment exceeds montante/meses, and total interest is positive. |
| CalculoEmprestimo.JurosNaoNegativos | app/src/test/java/com/example/simuladoremprestimmos/CalculoEmprestimoTest.kt:154-168 | Every successful result has total interest ≥ 0. |
| CalculoEmprestimo.PrestacaoCresceComTaxa | app/src/test/java/com/example/simuladoremprestimmos/CalculoEmprestimoTest.kt:76-87 | With principal and term fixed, a higher rate gives a strictly higher payment. |
| CalculoEmprestimo.TotalPagoCresceComTaxa | app/src/test/java/com/example/simuladoremprestimmos/CalculoEmprestimoTest.kt:76-87 | With principal and term fixed, a higher rate gives a strictly higher total paid. |
| CalculoEmprestimo.PrestacaoDiminuiComPrazo | app/src/test/java/com/example/simuladoremprestimmos/CalculoEmprestimoTest.kt:90-102 | At any rate ≥ 0, a longer term gives a strictly lower payment. |
| CalculoEmprestimo.JurosCrescemComPrazo | app/src/test/java/com/example/simuladoremprestimmos/CalculoEmprestimoTest.kt:90-102 | At a positive rate, a longer term gives strictly higher total interest. |
| CalculoEmprestimo.ExemplosSemJuros | app/src/test/java/com/example/simuladoremprestimmos/CalculoEmprestimoTest.kt:41-53 | (1200, 0, 12) gives 100/1200/0 and (5000, 0, 1) gives 5000/5000/0. |
| CalculoEmprestimo.ExemplosGuardas | app/src/test/java/com/example/simuladoremprestimmos/CalculoEmprestimoTest.kt:128-151 | Zero or negative amount, zero or negative term, and negative rate each give the matching error. |
| Texto.TrimStart | app/src/main/java/com/example/simuladoremprestimmos/ui/screens/SimulacaoViewModel.kt:145 | The result is a suffix of the input that starts with a non-whitespace character, and only whitespace was removed. |
| Texto.TrimEnd | app/src/main/java/com/example/simuladoremprestimmos/ui/screens/SimulacaoViewModel.kt:145 | The result is a prefix of the input that ends with a non-whitespace character, and only whitespace was removed. |
| Texto.BlankIffTrimEmpty | app/src/main/java/com/example/simuladoremprestimmos/ui/screens/SimulacaoViewModel.kt:145-146 | A text is blank exactly when trimming it leaves nothing. |
| Texto.Replace | app/src/main/java/com/example/simuladoremprestimmos/ui/screens/SimulacaoViewModel.kt:21 | Same length; each occurrence of the character is replaced and every other position is unchanged. |
| Texto.ToIntOrNull | app/src/main/java/com/example/simuladoremprestimmos/ui/screens/SimulacaoViewModel.kt:172 | A parsed value lies in the 32-bit range and comes only from digits with an optional leading sign. An all-digit or '+'-signed text parses to its decimal value exactly when that value is ≤ 2³¹−1. A '-'-signed text parses to the negated value exactly when the value is ≤ 2³¹. Otherwise the result is null. |
| Texto.DigitsValueConcat | app/src/main/java/com/example/simuladoremprestimmos/ui/screens/SimulacaoViewModel.kt:156 | Appending digits multiplies the value of the prefix by ten per appended digit and adds the value of the suffix. |
| Texto.DigitsValueMenor | app/src/main/java/com/example/simuladoremprestimmos/ui/screens/SimulacaoViewModel.kt:156 | A run of n digits is worth less than 10ⁿ. |
| Texto.FilterDigitsAllDigits | app/src/main/java/com/example/simuladoremprestimmos/ui/screens/SimulacaoViewModel.kt:51 | The term filter's output is all digits. |
| Texto.FilterDigitsSubsequence | app/src/main/java/com/example/simuladoremprestimmos/ui/screens/SimulacaoViewModel.kt:51 | The term filter keeps order: its output is a subsequence of its input. |
| Texto.FilterDigitsFixpoint | app/src/main/java/com/example/simuladoremprestimmos/ui/screens/SimulacaoViewModel.kt:51 | The term filter leaves a text unchanged exactly when the text is all digits. |
| Texto.FilterDigitsIdempotent | app/src/main/java/com/example/simuladoremprestimmos/ui/screens/SimulacaoViewModel.kt:51 | Filtering the term text twice is filtering it once. |
| Texto.FilterDigitsConcat | app/src/main/java/com/example/simuladoremprestimmos/ui/screens/SimulacaoViewModel.kt:51 | Filtering a concatenation is concatenating the filtered parts. |
| Texto.FilterDigitsCount | app/src/main/java/com/example/simuladoremprestimmos/ui/screens/SimulacaoViewModel.kt:51 | Every digit is kept as many times as it occurs, and no other character is kept. |
| ViewModel.FiltrarMontante | app/src/main/java/com/example/simuladoremprestimmos/ui/screens/SimulacaoViewModel.kt:24-35 | The loop with the `jaTemPonto` flag builds exactly the filter function `FiltroMontante` of its input. |
| ViewModel.PrimeiroPonto | app/src/main/java/com/example/simuladoremprestimmos/ui/screens/SimulacaoViewModel.kt:151 | The index of the first '.', or the length when there is none. |
| ViewModel.FiltroMontanteForma | app/src/main/java/com/example/simuladoremprestimmos/ui/screens/SimulacaoViewModel.kt:21-35 | The amount filter outputs only digits and at most one '.'. |
| ViewModel.FiltroMontanteSubsequencia | app/src/main/java/com/example/simuladoremprestimmos/ui/screens/SimulacaoViewModel.kt:24-35 | The amount filter keeps order: its output is a subsequence of the normalized input. |
| ViewModel.FiltroMontantePontoFixo | app/src/main/java/com/example/simuladoremprestimmos/ui/screens/SimulacaoViewModel.kt:24-35 | The amount filter leaves a text unchanged exactly when the text is already digits with at most one '.'. |
| ViewModel.FiltroMontanteIdempotente | app/src/main/java/com/example/simuladoremprestimmos/ui/screens/SimulacaoViewModel.kt:24-35 | Filtering twice is filtering once. |
| ViewModel.FiltroMontanteReferencia | app/src/main/java/com/example/simuladoremprestimmos/ui/screens/SimulacaoViewModel.kt:24-35 | Reference definition: the digits before the first '.', then that '.', then the digits after it; or only the digits when there is no '.'. |
| ViewModel.EntradaMontanteIdempotente | app/src/main/java/com/example/simuladoremprestimmos/ui/screens/SimulacaoViewModel.kt:20-35 | Normalizing and filtering an already-normalized and filtered amount text returns it unchanged. |
| ViewModel.FormatoMontanteSse | app/src/main/java/com/example/simuladoremprestimmos/ui/screens/SimulacaoViewModel.kt:151-153 | The hand-written pattern predicate holds exactly when the text is one or more digits, optionally followed by '.' and at most two digits. A trailing "12." is accepted. |
| ViewModel.ValorMontante | app/src/main/java/com/example/simuladoremprestimmos/ui/screens/SimulacaoViewModel.kt:156 | The value of an accepted amount text is the integer spelled by all its digits, divided by ten once per decimal. It is ≥ 0 and lies between its integer part and the next integer. |
| ViewModel.ParseMontante | app/src/main/java/com/example/simuladoremprestimmos/ui/screens/SimulacaoViewModel.kt:156 | The amount parses exactly when the text has the accepted format. The parsed value is then the integer spelled by all its digits divided by ten once per decimal, ≥ 0 and within one of its integer part. |
| ViewModel.DigitosMontante | app/src/main/java/com/example/simuladoremprestimmos/ui/screens/SimulacaoViewModel.kt:151-156 | Dropping the '.' of an accepted amount text leaves its integer digits followed by its decimal digits. |
| ViewModel.MontanteValidado | app/src/main/java/com/example/simuladoremprestimmos/ui/screens/SimulacaoViewModel.kt:144-164 | An amount text that passes its validator parses to an amount in [500, 75000]. |
| ViewModel.ValidarMontanteValor | app/src/main/java/com/example/simuladoremprestimmos/ui/screens/SimulacaoViewModel.kt:156-163 | Once the trimmed, normalized text parses to v, only the range checks on v decide the outcome, in source order. |
| ViewModel.ValidarMontante | app/src/main/java/com/example/simuladoremprestimmos/ui/screens/SimulacaoViewModel.kt:144-164 | Each outcome holds exactly under its condition, in source order: blank after trim, bad format after comma-to-dot, value ≤ 0, value < 500, value > 75000. "Valor inválido." is never returned. The result is null exactly for a well-formed value in [500, 75000]. |
| ViewModel.ValidarMeses | app/src/main/java/com/example/simuladoremprestimmos/ui/screens/SimulacaoViewModel.kt:169-179 | Each outcome holds exactly under its condition, in source order: blank, not a 32-bit Int, ≤ 0, > 84. The result is null exactly for an Int in 1..84. |
| ViewModel.ValidarMesesDigitos | app/src/main/java/com/example/simuladoremprestimmos/ui/screens/SimulacaoViewModel.kt:169-179 | On digit-only text, the term is accepted exactly for a non-empty text with value in 1..84. A value above 2³¹−1 gives "Valor inválido.". |
| ViewModel.CalcularTaxaAnual | app/src/main/java/com/example/simuladoremprestimmos/ui/screens/SimulacaoViewModel.kt:118-141 | The rate is base 6 plus the two adjustments. The amount adjustment is 3 exactly below 5000, 2 exactly on [5000, 15000] and 1 exactly above 15000. The term adjustment is 1 exactly up to 24, 2 exactly on 25..60 and 3 exactly above 60. The total lies in [8, 12]. |
| ViewModel.TaxaNaoCresceComMontante | app/src/main/java/com/example/simuladoremprestimmos/ui/screens/SimulacaoViewModel.kt:121-125 | A larger amount never raises the rate. |
| ViewModel.TaxaNaoDiminuiComPrazo | app/src/main/java/com/example/simuladoremprestimmos/ui/screens/SimulacaoViewModel.kt:127-131 | A longer term never lowers the rate. |
| ViewModel.ExemplosTaxa | app/src/main/java/com/example/simuladoremprestimmos/ui/screens/SimulacaoViewModel.kt:118-141 | (10000, 60), (3000, 12) and (75000, 84) each give 10 %, with their breakdowns. |
| ViewModel.ExemploMontanteVazio | app/src/main/java/com/example/simuladoremprestimmos/ui/screens/SimulacaoViewModel.kt:146 | "" is required. |
| ViewModel.ExemploMontanteBaixo | app/src/main/java/com/example/simuladoremprestimmos/ui/screens/SimulacaoViewModel.kt:160 | "400" is below the minimum. |
| ViewModel.ExemploMontanteAlto | app/src/main/java/com/example/simuladoremprestimmos/ui/screens/SimulacaoViewModel.kt:161 | "80000" is above the maximum. |
| ViewModel.ExemploMontanteTresCasas | app/src/main/java/com/example/simuladoremprestimmos/ui/screens/SimulacaoViewModel.kt:151-153 | "12.345" has too many decimals. |
| ViewModel.ParseMilEMeio | app/src/main/java/com/example/simuladoremprestimmos/ui/screens/SimulacaoViewModel.kt:156 | "1000.5" parses to 1000.5. |
| ViewModel.ExemploMontantePonto | app/src/main/java/com/example/simuladoremprestimmos/ui/screens/SimulacaoViewModel.kt:148-163 | "1000.5" is accepted. |
| ViewModel.ExemploMontanteVirgula | app/src/main/java/com/example/simuladoremprestimmos/ui/screens/SimulacaoViewModel.kt:148-163 | "1000,5" is accepted and denotes 1000.5. |
| ViewModel.MontanteInteiro | app/src/main/java/com/example/simuladoremprestimmos/ui/screens/SimulacaoViewModel.kt:145-156 | A run of digits is its own trimmed, normalized form and parses to its decimal value. |
| ViewModel.ExemplosMeses | app/src/main/java/com/example/simuladoremprestimmos/ui/screens/SimulacaoViewModel.kt:169-179 | "" is required, "0" is below 1, "90" is above 84, and "12" is accepted. |
| ViewModel.EntradasValidasCalculam | app/src/main/java/com/example/simuladoremprestimmos/ui/screens/SimulacaoViewModel.kt:85-97 | Filtered texts that pass both validators parse to an amount in [500, 75000] and a term in 1..84. At the estimated rate the calculator then succeeds, with positive interest and a payment above the straight-line one. |
| ViewModel.ResultadoMostrado | app/src/main/java/com/example/simuladoremprestimmos/ui/screens/SimulacaoViewModel.kt:69-110 | In a valid state that shows a result: `podeSimular` holds, both texts parse within their ranges, the shown rate is in [8, 12], interest is positive and the payment exceeds the straight-line one. |
| ViewModel.SimulacaoViewModel.constructor | app/src/main/java/com/example/simuladoremprestimmos/ui/screens/SimulacaoViewModel.kt:12 | The initial state is the default record and satisfies the invariant. |
| ViewModel.SimulacaoViewModel.OnMontanteChange | app/src/main/java/com/example/simuladoremprestimmos/ui/screens/SimulacaoViewModel.kt:20-47 | Only these fields change: the amount text becomes the filtered normalized input and its error is re-validated; the result, rate and detail are cleared and the detail is hidden. The invariant is kept. |
| ViewModel.SimulacaoViewModel.OnMesesChange | app/src/main/java/com/example/simuladoremprestimmos/ui/screens/SimulacaoViewModel.kt:50-62 | Only these fields change: the term text becomes its digits and its error is re-validated; the result, rate and detail are cleared and the detail is hidden. The invariant is kept. |
| ViewModel.SimulacaoViewModel.Limpar | app/src/main/java/com/example/simuladoremprestimmos/ui/screens/SimulacaoViewModel.kt:65-67 | The state becomes exactly the default record. |
| ViewModel.SimulacaoViewModel.Simular | app/src/main/java/com/example/simuladoremprestimmos/ui/screens/SimulacaoViewModel.kt:69-110 | The texts are unchanged and both errors are their validators' results. A result is shown exactly when both validators pass, and then it is the calculator's result for the parsed texts at the estimated rate. The calculator's guards always hold. |
| UiState.Mensagem | app/src/main/java/com/example/simuladoremprestimmos/ui/screens/SimulacaoViewModel.kt:146-176 | Each error's text is non-empty and ends with a full stop. |
| UiState.MensagemInjetiva | app/src/main/java/com/example/simuladoremprestimmos/ui/screens/SimulacaoViewModel.kt:146-176 | No two distinct errors show the same text. |
| UiState.PadraoVazio | app/src/main/java/com/example/simuladoremprestimmos/ui/screens/SimulacaoUiState.kt:9-20 | The defaults: empty texts, no errors, no rate, no detail, detail hidden, no result. |
| UiState.PadraoNaoPodeSimular | app/src/main/java/com/example/simuladoremprestimmos/ui/screens/SimulacaoUiState.kt:9-10 | The default state cannot be simulated. |
| UiState.PodeSimularSoDependeDosCampos | app/src/main/java/com/example/simuladoremprestimmos/ui/screens/SimulacaoUiState.kt:24-28 | `podeSimular` is unaffected by the result, rate, detail and detail-visibility fields. |
| UiState.PodeSimularSse | app/src/main/java/com/example/simuladoremprestimmos/ui/screens/SimulacaoUiState.kt:24-28 | `podeSimular` holds exactly when both errors are absent and each text has a non-whitespace character. |

## Left out

- IEEE-754 `Double` arithmetic (rounding, the accuracy of `pow`, NaN and Infinity) is not modelled: money and rates are exact reals. The tests on NaN/Infinity and the near-straight-line test at a tiny rate are therefore not stated.
- The `detalheTaxa` string, built with `Double.toString`, is represented by the three numbers of `UiState.DetalheTaxa`.
- The Compose `mutableStateOf` observation machinery and the private `updateState` helper are not modelled: `uiState` is a plain field that each method reassigns.
- Kotlin's `isDigit` and `isWhitespace` accept Unicode digits and spaces. Here digits are ASCII '0'..'9' and whitespace is the ASCII whitespace, and `toIntOrNull` reads ASCII digits only.
- The regex library is not modelled: `ViewModel.FormatoMontante` is a hand-written predicate for the same pattern.
- ViewModel.ParseMontante: it models `toDoubleOrNull` only on texts of the accepted pattern, which are the only texts that reach it. Its "Valor inválido." branch in `validarMontante` is taken for no input.
- ViewModel.SimulacaoViewModel.Simular: the early returns on `!podeSimular`, a null `toDoubleOrNull` and a null `toIntOrNull` are proved never to fire, so they are assertions rather than branches.
- Kotlin `require` throws `IllegalArgumentException`; `CalculoEmprestimo.Calcular` returns an `ErroArgumento` instead.
- The Compose screen, result card, previews, PDF export, Toasts, locale-dependent number formatting and the `podeLimpar` button flag in `SimulacaoScreen.kt` are user interface and Android I/O.
- `MainActivity.kt` and the theme colours are not part of this model.
- The 12-month minimum exercised by `CalculoEmprestimoTest.kt:103-125` tests inline logic, not production code; `validarMeses` accepts terms from 1 month.
