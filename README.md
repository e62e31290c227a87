# Card eligibility core of api-cartoes, in Dafny

This project models the decision core of the api-cartoes service. The service takes a client
profile (name, CPF, age, birth date, state, monthly income, contacts) and decides which credit
cards the client is offered.

- **Request validation.** `ClienteValidator.validar` checks the incoming request field by field.
  The first missing or blank field is rejected with its own business message.
- **Profile consistency.** `validarCliente` computes the age from the birth date
  (`ValidadorUtil.calcularIdade`). It rejects clients under the configured minimum age, and
  clients whose stated age differs from the computed one.
- **Rule resolution.** `avaliarCartoesDisponiveis` walks the ordered list of eligibility rules.
  It asks each rule `seAplica` in turn and returns `avaliarCartoes` of the first rule that
  applies. When none applies it fails with a business error.
- **The chain.** `StrategyConfig` fixes the order: young clients, then SP young adults, then
  other SP clients, then the default rule, which always applies.
- **The rules.**
  - The young rule offers the no-annual-fee card.
  - The SP young-adult rule delegates to the default rule.
  - The other-SP rule offers no-annual-fee and cashback cards.
  - The default rule sorts the income into a low, medium or high band; each band considers a
    growing set of cards.
  - Every offered card must still pass its own minimum-income threshold.
- **The mapping.** `CartaoFactoryImpl` copies each card into the response shape.

Modelling choices:

- Money (`BigDecimal`) is a Dafny `real`; comparisons ignore scale, as `compareTo` does.
- Dates are proleptic ISO dates with the Gregorian leap-year rule.
- The age is computed the way `Period.between(birth, today).getYears()` computes it: total
  months, the day adjustment, then division truncating toward zero. This is proved equal to
  the complete years elapsed, and to minus that when the birth date lies in the future.
- "Today" is a parameter.
- The Java interface `StrategyAvaliacaoCartao` is a tagged datatype `Estrategia` with one
  case per rule.
- Each rule's `@Value` fields are an explicit configuration record, derived from one
  `Propriedades` record that holds one value per property key. Two instances are given: the
  annotation fallbacks (`PropriedadesPadrao`) and the values the unit tests inject
  (`PropriedadesTeste`).
- The offer builders that fill a local list by successive `add` calls are methods that append
  to a local sequence. Each is proved equal to a declarative offer function built on one shared
  income-gate filter (`Elegibilidade.Aprovados`). The properties are proved about that function.
- The resolver is a pure recursive function. Besides the result, it returns the trace of
  `seAplica`/`avaliarCartoes` calls the lazy stream pipeline makes, so laziness and "offers
  are never merged" can be stated.

With the annotation fallbacks, every product threshold of the default rule lies at or above
its band's upper bound. So the low band never offers a card and the medium band never offers
the partner card (`StrategyConfig.PadroesDeixamFaixasVazias`). This follows from the
configured values, not from the code.

## Model

| member | source | states |
|---|---|---|
| Texto.EqualsIgnoreCaseSP | src/main/java/com/cartoes/api_cartoes/domain/strategy/impl/StrategyClienteSPJovemAdulto.java:28-32 | comparing the configured "SP" with a state ignoring case holds iff the state is present and is one of SP, Sp, sP, sp, ſP, ſp; a null state never matches |
| Texto.ToUpper | src/main/java/com/cartoes/api_cartoes/domain/strategy/impl/StrategyClienteSPJovemAdulto.java:29 | lower-case ASCII letters go to upper case, the long s U+017F to 'S', every other character is unchanged |
| Texto.EqualsIgnoreCase | src/main/java/com/cartoes/api_cartoes/domain/strategy/impl/StrategyClienteSPJovemAdulto.java:29 | no contract; properties in Texto.EqualsIgnoreCaseSP |
| Texto.IsWhitespace | src/main/java/com/cartoes/api_cartoes/application/dto/validator/ClienteValidator.java:29 | no contract; the character set of `Character.isWhitespace`; properties in Texto.IsBlankSoEspacos |
| Texto.IsBlank | src/main/java/com/cartoes/api_cartoes/application/dto/validator/ClienteValidator.java:29 | no contract; properties in Texto.IsBlankSoEspacos and ClienteValidator.TextoEmBrancoFalha |
| Texto.IsBlankSoEspacos | src/main/java/com/cartoes/api_cartoes/application/dto/validator/ClienteValidator.java:29 | a string is blank iff every one of its characters is whitespace (so the empty string is blank) |
| Texto.NatToString | src/main/java/com/cartoes/api_cartoes/domain/service/impl/AvaliacaoCartaoServiceImpl.java:48 | the decimal digits of a natural number: at least one digit, only digits, and no leading zero unless the number is 0 |
| Texto.NatToStringValor | src/main/java/com/cartoes/api_cartoes/domain/service/impl/AvaliacaoCartaoServiceImpl.java:48 | the digits of NatToString(n) denote n |
| Texto.ValorDecimal | src/main/java/com/cartoes/api_cartoes/domain/service/impl/AvaliacaoCartaoServiceImpl.java:48 | no contract; it is the reference value of a digit string used by Texto.NatToStringValor |
| Texto.IntToString | src/main/java/com/cartoes/api_cartoes/domain/service/impl/AvaliacaoCartaoServiceImpl.java:48 | the rendering of the minimum age in the message is non-empty and starts with '-' iff the number is negative |
| Texto.IntToStringValor | src/main/java/com/cartoes/api_cartoes/domain/service/impl/AvaliacaoCartaoServiceImpl.java:48 | the rendering denotes the number: its digits give i when i >= 0, and give -i after the sign when i < 0 |
| Texto.IntToStringInjetiva | src/main/java/com/cartoes/api_cartoes/domain/service/impl/AvaliacaoCartaoServiceImpl.java:48 | different integers render as different strings |
| Texto.IntToStringExamples | src/main/java/com/cartoes/api_cartoes/domain/service/impl/AvaliacaoCartaoServiceImpl.java:48 | 18, 0 and -7 render as "18", "0" and "-7" |
| Dominio.DaysInMonth | src/main/java/com/cartoes/api_cartoes/application/util/ValidadorUtil.java:22 | every month of the ISO calendar has 28 to 31 days |
| Dominio.MinusYears | src/test/java/com/cartoes/api_cartoes/application/util/ValidadorUtilTest.java:40 | subtracting years keeps the month and moves the year by exactly n; the day is kept when it exists in the target month, and otherwise becomes that month's last day (29 February goes to the 28th) |
| ValidadorUtil.JavaDiv | src/main/java/com/cartoes/api_cartoes/application/util/ValidadorUtil.java:22 | the years of a period are the months divided by 12, truncated toward zero |
| ValidadorUtil.PeriodYears | src/main/java/com/cartoes/api_cartoes/application/util/ValidadorUtil.java:22 | no contract; the month/day algorithm of `Period.between(...).getYears()`; properties in ValidadorUtil.PeriodYearsIsCompleteYears and PeriodYearsAntisymmetric |
| ValidadorUtil.CompleteYears | src/main/java/com/cartoes/api_cartoes/application/util/ValidadorUtil.java:22 | no contract; the complete-years reference for the age; related to the period in ValidadorUtil.PeriodYearsIsCompleteYears |
| ValidadorUtil.CalcularIdade | src/main/java/com/cartoes/api_cartoes/application/util/ValidadorUtil.java:18-23 | a null birth date fails with IllegalArgumentException and its message, and only a null one does; otherwise the age is the complete years elapsed (non-negative) up to today, or minus the complete years to a future birth date |
| ValidadorUtil.PeriodYearsIsCompleteYears | src/main/java/com/cartoes/api_cartoes/application/util/ValidadorUtil.java:22 | for birth not after today, the years of the period equal today's year minus the birth year, less one before the birthday |
| ValidadorUtil.PeriodYearsAntisymmetric | src/main/java/com/cartoes/api_cartoes/application/util/ValidadorUtil.java:22 | the years of the period from b to a are minus those from a to b |
| ValidadorUtil.CalcularIdadeMinusYears | src/test/java/com/cartoes/api_cartoes/application/util/ValidadorUtilTest.java:16-25 | a birth date n years before today gives age exactly n, for every today |
| ValidadorUtil.IsIdadeCompativel | src/main/java/com/cartoes/api_cartoes/application/util/ValidadorUtil.java:32-35 | fails iff the birth date is null; otherwise true iff the stated age equals the computed age |
| ValidadorUtil.IsIdadeCompativelExamples | src/test/java/com/cartoes/api_cartoes/application/util/ValidadorUtilTest.java:33-43 | a birth date 20 years back is compatible with 20 and not with 19 or 21; a null date fails |
| ValidadorUtil.IsIdadeMaiorOuIgualA | src/main/java/com/cartoes/api_cartoes/application/util/ValidadorUtil.java:44-46 | no contract; properties in ValidadorUtil.IsIdadeMaiorOuIgualAExamples and AvaliacaoCartaoService.ValidarClienteUsaPredicadosDoUtil |
| ValidadorUtil.IsIdadeMaiorOuIgualAExamples | src/main/java/com/cartoes/api_cartoes/application/util/ValidadorUtil.java:44-46 | 18 against 18 and 19 against 18 hold; 17 against 18 does not |
| Elegibilidade.Aprovados | src/main/java/com/cartoes/api_cartoes/domain/strategy/impl/StrategyPadrao.java:94-102 | a run of independent income gates yields no more cards than there are listed products; which cards, and in what order, is stated by Elegibilidade.AprovadosCorreto, AprovadosCompleto and AprovadosOrdem |
| Elegibilidade.AprovadosCorreto | src/main/java/com/cartoes/api_cartoes/domain/strategy/impl/StrategyPadrao.java:94-102 | every card yielded is the approved card of a listed product whose minimum income the client reaches |
| Elegibilidade.AprovadosCompleto | src/main/java/com/cartoes/api_cartoes/domain/strategy/impl/StrategyPadrao.java:94-102 | every listed product whose minimum income is reached yields its approved card |
| Elegibilidade.AprovadosOrdem | src/main/java/com/cartoes/api_cartoes/domain/strategy/impl/StrategyPadrao.java:94-102 | for products listed in card order, the cards come out in strictly increasing card order, so none repeats |
| Elegibilidade.AprovadosOferece | src/main/java/com/cartoes/api_cartoes/domain/strategy/impl/StrategyPadrao.java:94-102 | a card type is offered iff some listed product of that type has its minimum income reached |
| Elegibilidade.AprovadosVazio | src/main/java/com/cartoes/api_cartoes/domain/strategy/impl/StrategyPadrao.java:94-102 | nothing is offered iff no listed product has its minimum income reached |
| Elegibilidade.AprovadosConcatenados | src/main/java/com/cartoes/api_cartoes/domain/strategy/impl/StrategyPadrao.java:94-102 | gating two product lists one after the other yields the two results concatenated |
| Elegibilidade.AprovadosUnitarios | src/main/java/com/cartoes/api_cartoes/domain/strategy/impl/StrategyPadrao.java:94-102 | gating one, two or three products is the concatenation of each product's own gate |
| StrategyPadrao.Catalogo | src/main/java/com/cartoes/api_cartoes/domain/strategy/impl/StrategyPadrao.java:75-103 | each band lists its products in card order, each with its configured values; a card is listed iff the band considers it (low: no-annual-fee; medium: no-annual-fee and partner; high: all three) |
| StrategyPadrao.SeAplica | src/main/java/com/cartoes/api_cartoes/domain/strategy/impl/StrategyPadrao.java:66-68 | no contract; properties in StrategyPadrao.SeAplicaSempre |
| StrategyPadrao.FaixaDe | src/main/java/com/cartoes/api_cartoes/domain/strategy/impl/StrategyPadrao.java:76-93 | no contract; properties in StrategyPadrao.CartoesElegiveisOferece and FaixasExclusivas |
| StrategyPadrao.CartoesElegiveis | src/main/java/com/cartoes/api_cartoes/domain/strategy/impl/StrategyPadrao.java:70-106 | no contract; the reference of StrategyPadrao.AvaliarCartoes; properties in StrategyPadrao.CartoesElegiveisOferece, CartoesElegiveisOrdenados and CartoesElegiveisAprovados |
| StrategyPadrao.CreateCartaoSemAnuidade | src/main/java/com/cartoes/api_cartoes/domain/strategy/impl/StrategyPadrao.java:108-115 | no contract; properties in StrategyPadrao.CartoesElegiveisAprovados |
| StrategyPadrao.CreateCartaoParceiros | src/main/java/com/cartoes/api_cartoes/domain/strategy/impl/StrategyPadrao.java:117-124 | no contract; properties in StrategyPadrao.CartoesElegiveisAprovados |
| StrategyPadrao.CreateCartaoCashback | src/main/java/com/cartoes/api_cartoes/domain/strategy/impl/StrategyPadrao.java:126-132 | no contract; properties in StrategyPadrao.CartoesElegiveisAprovados |
| StrategyPadrao.AvaliarCartoes | src/main/java/com/cartoes/api_cartoes/domain/strategy/impl/StrategyPadrao.java:70-106 | the list built by the band chain equals the default rule's offer function |
| StrategyPadrao.CartoesElegiveisOrdenados | src/main/java/com/cartoes/api_cartoes/domain/strategy/impl/StrategyPadrao.java:70-106 | at most three cards, in strictly increasing card order |
| StrategyPadrao.CartoesElegiveisAprovados | src/main/java/com/cartoes/api_cartoes/domain/strategy/impl/StrategyPadrao.java:108-133 | each offered card carries its product's configured fee and limit and status APROVADO |
| StrategyPadrao.CartoesElegiveisOferece | src/main/java/com/cartoes/api_cartoes/domain/strategy/impl/StrategyPadrao.java:76-103 | a card is offered iff the income falls in a band (the first matching, in if/else-if order), that band considers the card, and the income reaches the card's minimum |
| StrategyPadrao.FaixasExclusivas | src/main/java/com/cartoes/api_cartoes/domain/strategy/impl/StrategyPadrao.java:76-103 | the low band offers only the no-annual-fee card, the medium band never cashback, and an income in no band gets nothing |
| StrategyPadrao.SeAplicaSempre | src/main/java/com/cartoes/api_cartoes/domain/strategy/impl/StrategyPadrao.java:65-68 | the default rule applies to every client |
| StrategyPadrao.CenarioFaixaBaixa | src/test/java/com/cartoes/api_cartoes/domain/strategy/impl/StrategyPadraoTest.java:61-73 | with the test values, income 2000 gets exactly the no-annual-fee card |
| StrategyPadrao.CenarioFaixaMedia | src/test/java/com/cartoes/api_cartoes/domain/strategy/impl/StrategyPadraoTest.java:77-90 | with the test values, income 3000 or 4000 gets exactly the no-annual-fee and partner cards |
| StrategyPadrao.CenarioFaixaAlta | src/test/java/com/cartoes/api_cartoes/domain/strategy/impl/StrategyPadraoTest.java:94-108 | with the test values, income 5000 or 6000 gets all three cards |
| StrategyPadrao.CenarioAbaixoDasFaixas | src/test/java/com/cartoes/api_cartoes/domain/strategy/impl/StrategyPadraoTest.java:112-123 | with the test values, income 500 gets nothing |
| StrategyClienteJovem.AvaliarCartoes | src/main/java/com/cartoes/api_cartoes/domain/strategy/impl/StrategyClienteJovem.java:40-53 | the list built by the guarded append equals the young rule's offer function |
| StrategyClienteJovem.SeAplica | src/main/java/com/cartoes/api_cartoes/domain/strategy/impl/StrategyClienteJovem.java:36-38 | no contract; properties in StrategyClienteJovem.SeAplicaSoDependeDaIdade and SeAplicaLimites |
| StrategyClienteJovem.CartoesElegiveis | src/main/java/com/cartoes/api_cartoes/domain/strategy/impl/StrategyClienteJovem.java:41-53 | no contract; the reference of StrategyClienteJovem.AvaliarCartoes; properties in StrategyClienteJovem.CartoesElegiveisForma |
| StrategyClienteJovem.SeAplicaSoDependeDaIdade | src/main/java/com/cartoes/api_cartoes/domain/strategy/impl/StrategyClienteJovem.java:35-38 | whether the young rule applies depends on the age only, not on state or income |
| StrategyClienteJovem.SeAplicaLimites | src/test/java/com/cartoes/api_cartoes/domain/strategy/impl/StrategyClienteJovemTest.java:35-55 | with band [18, 25): ages 18, 20, 24 apply and 17, 25, 26 do not |
| StrategyClienteJovem.CartoesElegiveisForma | src/main/java/com/cartoes/api_cartoes/domain/strategy/impl/StrategyClienteJovem.java:42-52 | the offers are empty or exactly the approved no-annual-fee card with its configured fee and limit, and non-empty iff the income reaches its minimum |
| StrategyClienteJovem.CenariosDoTeste | src/test/java/com/cartoes/api_cartoes/domain/strategy/impl/StrategyClienteJovemTest.java:58-92 | with the test values, income 1500 gets one approved card with fee 0.00 and limit 1000.00, income 500 gets nothing |
| StrategyClienteSPJovemAdulto.AvaliarCartoes | src/main/java/com/cartoes/api_cartoes/domain/strategy/impl/StrategyClienteSPJovemAdulto.java:35-37 | the SP young-adult offers are exactly the default rule's offers for the same client |
| StrategyClienteSPJovemAdulto.SeAplica | src/main/java/com/cartoes/api_cartoes/domain/strategy/impl/StrategyClienteSPJovemAdulto.java:28-32 | no contract; properties in StrategyClienteSPJovemAdulto.UfNulaNuncaAplica, SeAplicaLimites and StrategyClienteSaoPaulo.ParticaoDosClientesSP |
| StrategyClienteSPJovemAdulto.UfNulaNuncaAplica | src/main/java/com/cartoes/api_cartoes/domain/strategy/impl/StrategyClienteSPJovemAdulto.java:28-32 | a client with no state is never an SP young adult |
| StrategyClienteSPJovemAdulto.OfertasSoDependemDaRenda | src/main/java/com/cartoes/api_cartoes/domain/strategy/impl/StrategyClienteSPJovemAdulto.java:35-37 | clients with equal income get equal offers |
| StrategyClienteSPJovemAdulto.SeAplicaLimites | src/test/java/com/cartoes/api_cartoes/domain/strategy/impl/StrategyClienteSPJovemAdultoTest.java:40-63 | with band [25, 30) and "SP": SP ages 25, 27, 29 apply, SP 24, 30, 31 and RJ 27 do not, lower-case "sp" 27 applies |
| StrategyClienteSaoPaulo.Catalogo | src/main/java/com/cartoes/api_cartoes/domain/strategy/impl/StrategyClienteSaoPaulo.java:60-80 | the two offers of the other-SP rule are in card order; which cards are offered, and when, is stated by StrategyClienteSaoPaulo.CartoesElegiveisPortoes |
| StrategyClienteSaoPaulo.SeAplica | src/main/java/com/cartoes/api_cartoes/domain/strategy/impl/StrategyClienteSaoPaulo.java:48-56 | no contract; properties in StrategyClienteSaoPaulo.SeAplicaCaracterizacao, SeAplicaLimites and ParticaoDosClientesSP |
| StrategyClienteSaoPaulo.CartoesElegiveis | src/main/java/com/cartoes/api_cartoes/domain/strategy/impl/StrategyClienteSaoPaulo.java:59-81 | no contract; the reference of StrategyClienteSaoPaulo.AvaliarCartoes; properties in StrategyClienteSaoPaulo.CartoesElegiveisPortoes |
| StrategyClienteSaoPaulo.AvaliarCartoes | src/main/java/com/cartoes/api_cartoes/domain/strategy/impl/StrategyClienteSaoPaulo.java:58-81 | the list built by the two independent guarded appends equals the other-SP offer function |
| StrategyClienteSaoPaulo.SeAplicaCaracterizacao | src/main/java/com/cartoes/api_cartoes/domain/strategy/impl/StrategyClienteSaoPaulo.java:48-56 | the rule applies iff the state is SP (ignoring case) and the age lies outside the young-adult band |
| StrategyClienteSaoPaulo.SeAplicaLimites | src/test/java/com/cartoes/api_cartoes/domain/strategy/impl/StrategyClienteSaoPauloTest.java:35-58 | SP 20 and 31 apply; SP 25 and 29 and RJ 20 and 27 do not |
| StrategyClienteSaoPaulo.ParticaoDosClientesSP | src/main/java/com/cartoes/api_cartoes/domain/strategy/impl/StrategyClienteSaoPaulo.java:48-56 | with the same band and state, the SP young-adult rule and the other-SP rule never both apply, and together they apply exactly to the SP clients |
| StrategyClienteSaoPaulo.CartoesElegiveisPortoes | src/main/java/com/cartoes/api_cartoes/domain/strategy/impl/StrategyClienteSaoPaulo.java:60-80 | no-annual-fee is offered iff its minimum is reached, cashback iff its minimum is reached, never the partner card; at most two cards, in order, each the configured approved card |
| StrategyClienteSaoPaulo.CenariosDoTeste | src/test/java/com/cartoes/api_cartoes/domain/strategy/impl/StrategyClienteSaoPauloTest.java:62-114 | with the test values, income 2000 gets no-annual-fee, 6000 gets no-annual-fee and cashback, 500 gets nothing |
| StrategyAvaliacaoCartao.Avaliar | src/main/java/com/cartoes/api_cartoes/domain/strategy/StrategyAvaliacaoCartao.java:8-12 | dispatching avaliarCartoes to a rule's implementation yields that rule's offer function |
| StrategyAvaliacaoCartao.SeAplica | src/main/java/com/cartoes/api_cartoes/domain/strategy/StrategyAvaliacaoCartao.java:9 | no contract; dispatch to the rule's own seAplica; properties in the StrategyConfig chain lemmas |
| StrategyAvaliacaoCartao.AvaliarCartoes | src/main/java/com/cartoes/api_cartoes/domain/strategy/StrategyAvaliacaoCartao.java:11 | no contract; dispatch to the rule's own offer function; tied to the imperative implementations by StrategyAvaliacaoCartao.Avaliar |
| AvaliacaoCartaoService.ChamadasSeAplica | src/main/java/com/cartoes/api_cartoes/domain/service/impl/AvaliacaoCartaoServiceImpl.java:33 | the seAplica calls on positions k to n-1, one per position, in order |
| AvaliacaoCartaoService.Percorrer | src/main/java/com/cartoes/api_cartoes/domain/service/impl/AvaliacaoCartaoServiceImpl.java:32-36 | no contract; the lazy filter/findFirst/map walk with its call trace; properties in AvaliacaoCartaoService.PercorrerAteAplicavel and PercorrerSemAplicavel |
| AvaliacaoCartaoService.AvaliarCartoesDisponiveis | src/main/java/com/cartoes/api_cartoes/domain/service/impl/AvaliacaoCartaoServiceImpl.java:28-37 | no contract; properties in AvaliacaoCartaoService.ResultadoDaPrimeiraAplicavel, FalhaSeNenhumaAplica and NuncaFalhaSeUltimaAplica |
| AvaliacaoCartaoService.Chamadas | src/main/java/com/cartoes/api_cartoes/domain/service/impl/AvaliacaoCartaoServiceImpl.java:32-35 | no contract; properties in AvaliacaoCartaoService.ResultadoDaPrimeiraAplicavel and AvaliarCartoesSoEmAplicavel |
| AvaliacaoCartaoService.PercorrerAteAplicavel | src/main/java/com/cartoes/api_cartoes/domain/service/impl/AvaliacaoCartaoServiceImpl.java:32-35 | from position k, when rule i is the first that applies, the walk returns rule i's offers after asking seAplica of k..i and avaliarCartoes of i |
| AvaliacaoCartaoService.PercorrerSemAplicavel | src/main/java/com/cartoes/api_cartoes/domain/service/impl/AvaliacaoCartaoServiceImpl.java:32-36 | from position k, when no later rule applies, the walk fails with the business message after asking seAplica of each remaining rule |
| AvaliacaoCartaoService.ResultadoDaPrimeiraAplicavel | src/main/java/com/cartoes/api_cartoes/domain/service/impl/AvaliacaoCartaoServiceImpl.java:32-35 | the result is exactly the offers of the first rule in list order that applies; seAplica is asked of it and its predecessors only, and avaliarCartoes of it only |
| AvaliacaoCartaoService.FalhaSeNenhumaAplica | src/main/java/com/cartoes/api_cartoes/domain/service/impl/AvaliacaoCartaoServiceImpl.java:32-36 | the call fails iff no rule applies, and then with BusinessException "Não foi possível avaliar os cartões elegíveis" and no avaliarCartoes call |
| AvaliacaoCartaoService.ExistePrimeiraAplicavel | src/main/java/com/cartoes/api_cartoes/domain/service/impl/AvaliacaoCartaoServiceImpl.java:33-34 | when some rule applies, a first applicable one exists, at or before it |
| AvaliacaoCartaoService.AvaliarCartoesSoEmAplicavel | src/main/java/com/cartoes/api_cartoes/domain/service/impl/AvaliacaoCartaoServiceImpl.java:33-35 | avaliarCartoes is called at most once, as the last call, and only on a rule that applies, so offers of different rules are never merged |
| AvaliacaoCartaoService.NuncaFalhaSeUltimaAplica | src/main/java/com/cartoes/api_cartoes/domain/service/impl/AvaliacaoCartaoServiceImpl.java:32-36 | when the last rule applies the call never fails |
| AvaliacaoCartaoService.ValidarCliente | src/main/java/com/cartoes/api_cartoes/domain/service/impl/AvaliacaoCartaoServiceImpl.java:40-56 | no contract; properties in AvaliacaoCartaoService.ValidarClienteIdadeCalculada, ValidarClienteCaracterizacao and ValidarClienteDataInvalida |
| AvaliacaoCartaoService.MensagemIdadeMinima | src/main/java/com/cartoes/api_cartoes/domain/service/impl/AvaliacaoCartaoServiceImpl.java:48 | no contract; properties in AvaliacaoCartaoService.MensagemIdadeMinimaIdentifica |
| AvaliacaoCartaoService.MensagemIdadeMinimaIdentifica | src/main/java/com/cartoes/api_cartoes/domain/service/impl/AvaliacaoCartaoServiceImpl.java:48 | the minimum-age message determines the configured minimum: two minimums give the same message only if they are equal |
| AvaliacaoCartaoService.ValidarClienteIdadeCalculada | src/main/java/com/cartoes/api_cartoes/domain/service/impl/AvaliacaoCartaoServiceImpl.java:40-56 | for every present birth date, past or future, the computed age exists; the check passes iff that age reaches the minimum and equals the stated age; too young fails with the minimum-age message, otherwise a mismatch fails with the mismatch message |
| AvaliacaoCartaoService.ValidarClienteUsaPredicadosDoUtil | src/main/java/com/cartoes/api_cartoes/domain/service/impl/AvaliacaoCartaoServiceImpl.java:40-56 | a client that passes satisfies `isIdadeMaiorOuIgualA` for its stated age and `isIdadeCompativel` holds for it |
| AvaliacaoCartaoService.ValidarClienteCaracterizacao | src/main/java/com/cartoes/api_cartoes/domain/service/impl/AvaliacaoCartaoServiceImpl.java:40-56 | for a birth date not after today: passes iff the complete years reach the minimum and equal the stated age; too young fails with the minimum-age message whatever the stated age; old enough but inconsistent fails with the mismatch message |
| AvaliacaoCartaoService.ValidarClienteDataInvalida | src/main/java/com/cartoes/api_cartoes/domain/service/impl/AvaliacaoCartaoServiceImpl.java:44-49 | a null birth date fails with IllegalArgumentException; a future birth date fails every positive minimum age |
| AvaliacaoCartaoService.ValidarClienteCenarios | src/test/java/com/cartoes/api_cartoes/domain/service/impl/AvaliacaoCartaoServiceImplTest.java:84-125 | with minimum 18 and any today: 25 born 25 years back passes, 17 born 17 years back fails with "Cliente deve ter pelo menos 18 anos", 25 born 30 years back fails with the mismatch message |
| StrategyConfig.EstrategiasAvaliacaoCartao | src/main/java/com/cartoes/api_cartoes/infrastructure/config/StrategyConfig.java:23-35 | four rules, in the order young, SP young-adult, other SP, default; the last applies to every client |
| StrategyConfig.CadeiaTotal | src/main/java/com/cartoes/api_cartoes/infrastructure/config/StrategyConfig.java:29-34 | resolving over the configured chain never fails |
| StrategyConfig.JovemTemPrioridade | src/main/java/com/cartoes/api_cartoes/infrastructure/config/StrategyConfig.java:30 | a client in the young band gets the young rule's offers, whatever the state |
| StrategyConfig.SPJovemAdultoRecebePadrao | src/main/java/com/cartoes/api_cartoes/infrastructure/config/StrategyConfig.java:31 | an SP client outside the young band and inside the young-adult band gets exactly the default rule's offers |
| StrategyConfig.OutrosSPRecebemSaoPaulo | src/main/java/com/cartoes/api_cartoes/infrastructure/config/StrategyConfig.java:32 | an SP client outside both bands gets the other-SP offers and never the partner card |
| StrategyConfig.DemaisRecebemPadrao | src/main/java/com/cartoes/api_cartoes/infrastructure/config/StrategyConfig.java:33 | a client outside SP (or with no state) and outside the young band gets the default rule's offers |
| StrategyConfig.PadroesDeixamFaixasVazias | src/main/java/com/cartoes/api_cartoes/domain/strategy/impl/StrategyPadrao.java:22-45 | with the annotation fallbacks the low band offers nothing and the medium band never the partner card |
| StrategyConfig.CenarioJovemSP | src/main/java/com/cartoes/api_cartoes/infrastructure/config/StrategyConfig.java:30 | through the whole chain with the test values: age 20, SP, income 1500 gets one no-annual-fee card, fee 0.00, limit 1000.00 |
| StrategyConfig.CenarioSPJovemAdulto | src/main/java/com/cartoes/api_cartoes/infrastructure/config/StrategyConfig.java:31 | through the chain: age 27, SP, income 4000 gets the no-annual-fee and partner cards |
| StrategyConfig.CenarioOutroSP | src/main/java/com/cartoes/api_cartoes/infrastructure/config/StrategyConfig.java:32 | through the chain: age 40, SP, income 6000 gets the no-annual-fee and cashback cards |
| StrategyConfig.CenarioOutroEstado | src/main/java/com/cartoes/api_cartoes/infrastructure/config/StrategyConfig.java:33 | through the chain: age 40, RJ, income 6000 gets all three cards |
| ClienteValidator.Validar | src/main/java/com/cartoes/api_cartoes/application/dto/validator/ClienteValidator.java:21-60 | every failure is a BusinessException; a null request or null client fails with "Dados do cliente não podem ser nulos" |
| ClienteValidator.CampoOk | src/main/java/com/cartoes/api_cartoes/application/dto/validator/ClienteValidator.java:29-59 | no contract; each field's guard: text fields present and not blank, idade, dataNascimento and rendaMensal present; properties in ClienteValidator.ValidarSucesso |
| ClienteValidator.Mensagem | src/main/java/com/cartoes/api_cartoes/application/dto/validator/ClienteValidator.java:29-59 | no contract; each field's business message; properties in ClienteValidator.MensagemIdentificaCampo |
| ClienteValidator.MensagemIdentificaCampo | src/main/java/com/cartoes/api_cartoes/application/dto/validator/ClienteValidator.java:29-59 | no two checked fields share a message, so the message names the field that failed |
| ClienteValidator.Inicial | src/main/java/com/cartoes/api_cartoes/application/dto/validator/ClienteValidator.java:30-58 | no contract; the first letter of each field's message, a proof step of ClienteValidator.MensagemIdentificaCampo |
| ClienteValidator.InicialDaMensagem | src/main/java/com/cartoes/api_cartoes/application/dto/validator/ClienteValidator.java:30-58 | each field's message is non-empty and starts with that field's letter; a proof step of ClienteValidator.MensagemIdentificaCampo |
| ClienteValidator.PrimeiraFalha | src/main/java/com/cartoes/api_cartoes/application/dto/validator/ClienteValidator.java:29-59 | an ordered scan of the field table from index i finds, if anything, a listed field whose check fails |
| ClienteValidator.PrimeiraFalhaPassa | src/main/java/com/cartoes/api_cartoes/application/dto/validator/ClienteValidator.java:29-59 | the scan from index i finds nothing iff every field from i on passes its check |
| ClienteValidator.PrimeiraFalhaIndice | src/main/java/com/cartoes/api_cartoes/application/dto/validator/ClienteValidator.java:29-59 | the scan from index i finds the field at index k when it fails and every field from i up to k passes |
| ClienteValidator.ValidarSegueOrdem | src/main/java/com/cartoes/api_cartoes/application/dto/validator/ClienteValidator.java:29-59 | for a present client, validar fails with the message of the first failing field of the scan in the order nome, cpf, idade, dataNascimento, uf, rendaMensal, email, telefoneWhatsapp, and returns normally when the scan finds none |
| ClienteValidator.ValidarSucesso | src/main/java/com/cartoes/api_cartoes/application/dto/validator/ClienteValidator.java:21-60 | validar passes iff the request and client are present, the five text fields are present and not blank, and idade, birth date and income are present |
| ClienteValidator.PrimeiroCampoInvalido | src/main/java/com/cartoes/api_cartoes/application/dto/validator/ClienteValidator.java:29-59 | only the first failing field in the fixed order is reported, with its own message |
| ClienteValidator.ValoresNaoSaoVerificados | src/main/java/com/cartoes/api_cartoes/application/dto/validator/ClienteValidator.java:37-51 | idade, birth date and income are checked for presence only: changing their values never changes the outcome |
| ClienteValidator.TextoEmBrancoFalha | src/main/java/com/cartoes/api_cartoes/application/dto/validator/ClienteValidator.java:29-31 | an empty, a whitespace-only and a null name all fail with the name message |
| CartaoFactory.ToCartaoResponse | src/main/java/com/cartoes/api_cartoes/application/factory/impl/CartaoFactoryImpl.java:15-21 | type, monthly fee, limit and status are copied unchanged |
| CartaoFactory.ToCartaoResponseList | src/main/java/com/cartoes/api_cartoes/application/factory/impl/CartaoFactoryImpl.java:25-29 | same length; element i is the response of input element i, so order is kept |
| CartaoFactory.ToCartaoResponseInversivel | src/main/java/com/cartoes/api_cartoes/application/factory/impl/CartaoFactoryImpl.java:15-21 | the response determines the card: mapping back restores it, so distinct cards give distinct responses |
| CartaoFactory.ToCartaoResponseListConcatena | src/main/java/com/cartoes/api_cartoes/application/factory/impl/CartaoFactoryImpl.java:25-29 | the empty list maps to the empty list and the mapping distributes over concatenation |
| CartaoFactory.ToCartaoResponseListInversivel | src/main/java/com/cartoes/api_cartoes/application/factory/impl/CartaoFactoryImpl.java:25-29 | mapping the response list back element-wise restores the card list |

## Left out

- HTTP layer, health probes and the problem-document error translation: framework plumbing, not decision logic.
- External client registration with retry, circuit breaker and random UUID fallback: network I/O and randomness.
- Orchestration in the application service (timestamps, protocol UUIDs, logging): it only calls the modelled parts in sequence.
- JSON shapes and annotations of the DTOs: serialisation only. ClienteDTO, ClienteRequest and CartaoResponse appear as plain records.
- Spring `@Value` injection: replaced by explicit configuration records. The service's minimum age has no annotation fallback, so it is a parameter of `ValidarCliente`.
- `LocalDate.now()`: the clock is the parameter `hoje`.
- The jakarta `Validator` built in the ClienteValidator constructor: it is never used.
- Logging calls: they have no effect on results.
- A null `idade` or `rendaMensal` in the domain `Cliente`: the Java rules would throw NullPointerException on unboxing or comparison, so the model takes both as always present. A null state and a null birth date are modelled.
- Texto.EqualsIgnoreCase: folds the ASCII letters and the long s (U+017F) only, not the full Unicode case mapping of `String.equalsIgnoreCase`, so two non-ASCII strings that differ only in case compare unequal. No other character folds to S or P, so comparisons with the configured "SP" are exact.
- Texto.IsBlank: uses the fixed set of characters `Character.isWhitespace` accepts; supplementary-plane code points are not considered.
- ValidadorUtil.CalcularIdade: the `int` year count is unbounded, so there is no overflow for dates beyond the ISO range that `LocalDate` accepts.
- AvaliacaoCartaoService.AvaliarCartoesDisponiveis: resolves over the four rule kinds of `Estrategia`, not over arbitrary implementations, so the mocked rules of the service's unit test are not representable. The resolver lemmas hold for every list of these rules.
- Identity of returned lists (`assertSame` in the SP young-adult test): values have no identity in the model. Equality of the offers is what is proved.
- Rules are pure here, so calling one twice gives the same answer. Idempotence needs no statement.
