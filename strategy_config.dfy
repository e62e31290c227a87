/**
 * The configured rule chain: the four rules in priority order, each configured from the
 * application properties (the values Spring injects into their fields).
 */
module StrategyConfig {

  import opened Erros
  import opened Dominio
  import opened Texto
  import opened Elegibilidade
  import opened StrategyAvaliacaoCartao
  import opened AvaliacaoCartaoService
  import StrategyClienteJovem
  import StrategyClienteSPJovemAdulto
  import StrategyClienteSaoPaulo
  import StrategyPadrao

  /** The application properties the rules read, one field per property key. */
  datatype Propriedades = Propriedades(
    idadeMinima: int,              // aplicacao.cliente.idade-minima
    idadeJovemMaxima: int,         // aplicacao.cliente.idade-jovem-maxima
    spJovemAdultoIdadeMin: int,    // aplicacao.cliente.sp-jovem-adulto-idade-min
    spJovemAdultoIdadeMax: int,    // aplicacao.cliente.sp-jovem-adulto-idade-max
    saoPaulo: string,              // aplicacao.estados.sao-paulo
    faixaBaixaMin: Money,          // aplicacao.renda.faixa-baixa-min
    faixaBaixaMax: Money,          // aplicacao.renda.faixa-baixa-max
    faixaMediaMin: Money,          // aplicacao.renda.faixa-media-min
    faixaMediaMax: Money,          // aplicacao.renda.faixa-media-max
    faixaAltaMin: Money,           // aplicacao.renda.faixa-alta-min
    semAnuidade: Produto,          // aplicacao.cartoes.sem-anuidade.{renda-minima, limite, anuidade}
    parceiros: Produto,            // aplicacao.cartoes.parceiros.{renda-minima, limite, anuidade}
    cashback: Produto)             // aplicacao.cartoes.cashback.{renda-minima, limite, anuidade}

  /** The fallback values written in the rules' @Value annotations. */
  const PropriedadesPadrao: Propriedades := Propriedades(
    18, 25, 25, 30, "SP",
    1000.00, 3000.00, 3000.00, 5000.00, 5000.00,
    Produto(3500.00, 1000.00, 0.00),
    Produto(5500.00, 3000.00, 20.00),
    Produto(7500.00, 5000.00, 15.00))

  /** The values the unit tests set on the rules. */
  const PropriedadesTeste: Propriedades := Propriedades(
    18, 25, 25, 30, "SP",
    1000.00, 3000.00, 3000.00, 5000.00, 5000.00,
    Produto(1000.00, 1000.00, 0.00),
    Produto(3000.00, 3000.00, 20.00),
    Produto(5000.00, 5000.00, 15.00))

  function ConfigJovem(p: Propriedades): StrategyClienteJovem.Config
  {
    StrategyClienteJovem.Config(p.idadeMinima, p.idadeJovemMaxima, p.semAnuidade)
  }

  function ConfigPadrao(p: Propriedades): StrategyPadrao.Config
  {
    StrategyPadrao.Config(p.faixaBaixaMin, p.faixaBaixaMax, p.faixaMediaMin, p.faixaMediaMax, p.faixaAltaMin,
                          p.semAnuidade, p.parceiros, p.cashback)
  }

  function ConfigSPJovemAdulto(p: Propriedades): StrategyClienteSPJovemAdulto.Config
  {
    StrategyClienteSPJovemAdulto.Config(ConfigPadrao(p), p.spJovemAdultoIdadeMin, p.spJovemAdultoIdadeMax, p.saoPaulo)
  }

  function ConfigSaoPaulo(p: Propriedades): StrategyClienteSaoPaulo.Config
  {
    StrategyClienteSaoPaulo.Config(p.spJovemAdultoIdadeMin, p.spJovemAdultoIdadeMax, p.saoPaulo, p.semAnuidade, p.cashback)
  }

  /**
   * estrategiasAvaliacaoCartao: young, SP young-adult, other SP, default; the default is last and
   * applies to every client.
   */
  function EstrategiasAvaliacaoCartao(p: Propriedades): (r: seq<Estrategia>)
    ensures |r| == 4
    ensures r[0].ClienteJovem? && r[1].ClienteSPJovemAdulto? && r[2].ClienteSaoPaulo? && r[3].Padrao?
    ensures forall cliente :: SeAplica(r[3], cliente)
  {
    [ ClienteJovem(ConfigJovem(p)),
      ClienteSPJovemAdulto(ConfigSPJovemAdulto(p)),
      ClienteSaoPaulo(ConfigSaoPaulo(p)),
      Padrao(ConfigPadrao(p)) ]
  }

  predicate EhSP(p: Propriedades, cliente: Cliente)
  {
    EqualsIgnoreCase(p.saoPaulo, cliente.uf)
  }

  predicate EhJovem(p: Propriedades, cliente: Cliente)
  {
    p.idadeMinima <= cliente.idade < p.idadeJovemMaxima
  }

  predicate EhJovemAdulto(p: Propriedades, cliente: Cliente)
  {
    p.spJovemAdultoIdadeMin <= cliente.idade < p.spJovemAdultoIdadeMax
  }

  /** Resolving over the configured chain never fails. */
  lemma CadeiaTotal(p: Propriedades, cliente: Cliente)
    ensures AvaliarCartoesDisponiveis(EstrategiasAvaliacaoCartao(p), cliente).Ok?
  {
    NuncaFalhaSeUltimaAplica(EstrategiasAvaliacaoCartao(p), cliente);
  }

  /** A client in the young band gets the young rule's offers, whatever the state (SP included). */
  lemma JovemTemPrioridade(p: Propriedades, cliente: Cliente)
    requires EhJovem(p, cliente)
    ensures AvaliarCartoesDisponiveis(EstrategiasAvaliacaoCartao(p), cliente)
              == Ok(StrategyClienteJovem.CartoesElegiveis(ConfigJovem(p), cliente))
  {
    ResultadoDaPrimeiraAplicavel(EstrategiasAvaliacaoCartao(p), cliente, 0);
  }

  /** An SP client outside the young band but in the young-adult band gets exactly the default rule's offers. */
  lemma SPJovemAdultoRecebePadrao(p: Propriedades, cliente: Cliente)
    requires EhSP(p, cliente) && !EhJovem(p, cliente) && EhJovemAdulto(p, cliente)
    ensures AvaliarCartoesDisponiveis(EstrategiasAvaliacaoCartao(p), cliente)
              == Ok(StrategyPadrao.CartoesElegiveis(ConfigPadrao(p), cliente))
  {
    ResultadoDaPrimeiraAplicavel(EstrategiasAvaliacaoCartao(p), cliente, 1);
  }

  /** An SP client outside both bands gets the other-SP rule's offers, never the partner card. */
  lemma OutrosSPRecebemSaoPaulo(p: Propriedades, cliente: Cliente)
    requires EhSP(p, cliente) && !EhJovem(p, cliente) && !EhJovemAdulto(p, cliente)
    ensures AvaliarCartoesDisponiveis(EstrategiasAvaliacaoCartao(p), cliente)
              == Ok(StrategyClienteSaoPaulo.CartoesElegiveis(ConfigSaoPaulo(p), cliente))
    ensures !Oferece(AvaliarCartoesDisponiveis(EstrategiasAvaliacaoCartao(p), cliente).value, CartaoDeParceiros)
  {
    ResultadoDaPrimeiraAplicavel(EstrategiasAvaliacaoCartao(p), cliente, 2);
    StrategyClienteSaoPaulo.CartoesElegiveisPortoes(ConfigSaoPaulo(p), cliente);
  }

  /** A client outside SP (or with no state) and outside the young band gets the default rule's offers. */
  lemma DemaisRecebemPadrao(p: Propriedades, cliente: Cliente)
    requires !EhSP(p, cliente) && !EhJovem(p, cliente)
    ensures AvaliarCartoesDisponiveis(EstrategiasAvaliacaoCartao(p), cliente)
              == Ok(StrategyPadrao.CartoesElegiveis(ConfigPadrao(p), cliente))
  {
    ResultadoDaPrimeiraAplicavel(EstrategiasAvaliacaoCartao(p), cliente, 3);
  }

  /**
   * With the fallback values, the default rule's low band offers nothing and its medium band
   * never the partner card: every product threshold lies at or above its band's upper bound.
   */
  lemma PadroesDeixamFaixasVazias(cliente: Cliente)
    ensures var cfg := ConfigPadrao(PropriedadesPadrao);
            var r := StrategyPadrao.CartoesElegiveis(cfg, cliente);
            && (StrategyPadrao.FaixaDe(cfg, cliente.rendaMensal) == Some(StrategyPadrao.Baixa) ==> r == [])
            && (StrategyPadrao.FaixaDe(cfg, cliente.rendaMensal) == Some(StrategyPadrao.Media) ==> !Oferece(r, CartaoDeParceiros))
  {
    var cfg := ConfigPadrao(PropriedadesPadrao);
    StrategyPadrao.CartoesElegiveisOferece(cfg, cliente, CartaoSemAnuidade);
    StrategyPadrao.CartoesElegiveisOferece(cfg, cliente, CartaoDeParceiros);
    StrategyPadrao.FaixasExclusivas(cfg, cliente);
  }

  // ---------------------------------------------------------------------------
  // End-to-end scenarios with the unit-test values

  /** Age 20, SP, 1500.00: the young rule, one approved no-annual-fee card, fee 0.00, limit 1000.00. */
  lemma CenarioJovemSP()
    ensures AvaliarCartoesDisponiveis(EstrategiasAvaliacaoCartao(PropriedadesTeste), ClienteExemplo(20, Some("SP"), 1500.00))
              == Ok([Cartao(CartaoSemAnuidade, 0.00, 1000.00, Aprovado)])
  {
    JovemTemPrioridade(PropriedadesTeste, ClienteExemplo(20, Some("SP"), 1500.00));
    assert ConfigJovem(PropriedadesTeste) == StrategyClienteJovem.ConfigTeste;
    StrategyClienteJovem.CartoesElegiveisForma(StrategyClienteJovem.ConfigTeste, ClienteExemplo(20, Some("SP"), 1500.00));
  }

  /** Age 27, SP, 4000.00: the SP young-adult rule, the default's medium band: no-annual-fee and partner. */
  lemma CenarioSPJovemAdulto()
    ensures AvaliarCartoesDisponiveis(EstrategiasAvaliacaoCartao(PropriedadesTeste), ClienteExemplo(27, Some("SP"), 4000.00))
              == Ok([CartaoAprovado(CartaoSemAnuidade, PropriedadesTeste.semAnuidade),
                     CartaoAprovado(CartaoDeParceiros, PropriedadesTeste.parceiros)])
  {
    var c := ClienteExemplo(27, Some("SP"), 4000.00);
    EqualsIgnoreCaseSP(c.uf);
    SPJovemAdultoRecebePadrao(PropriedadesTeste, c);
    assert ConfigPadrao(PropriedadesTeste) == StrategyPadrao.ConfigTeste;
    StrategyPadrao.CenarioFaixaMedia(4000.00);
  }

  /** Age 40, SP, 6000.00: the other-SP rule: no-annual-fee and cashback, no partner. */
  lemma CenarioOutroSP()
    ensures AvaliarCartoesDisponiveis(EstrategiasAvaliacaoCartao(PropriedadesTeste), ClienteExemplo(40, Some("SP"), 6000.00))
              == Ok([CartaoAprovado(CartaoSemAnuidade, PropriedadesTeste.semAnuidade),
                     CartaoAprovado(CartaoComCashback, PropriedadesTeste.cashback)])
  {
    var c := ClienteExemplo(40, Some("SP"), 6000.00);
    EqualsIgnoreCaseSP(c.uf);
    OutrosSPRecebemSaoPaulo(PropriedadesTeste, c);
    assert ConfigSaoPaulo(PropriedadesTeste) == StrategyClienteSaoPaulo.ConfigTeste;
    StrategyClienteSaoPaulo.CenariosDoTeste();
  }

  /** Age 40, RJ, 6000.00: the default rule's high band: all three cards. */
  lemma CenarioOutroEstado()
    ensures AvaliarCartoesDisponiveis(EstrategiasAvaliacaoCartao(PropriedadesTeste), ClienteExemplo(40, Some("RJ"), 6000.00))
              == Ok([CartaoAprovado(CartaoSemAnuidade, PropriedadesTeste.semAnuidade),
                     CartaoAprovado(CartaoDeParceiros, PropriedadesTeste.parceiros),
                     CartaoAprovado(CartaoComCashback, PropriedadesTeste.cashback)])
  {
    var c := ClienteExemplo(40, Some("RJ"), 6000.00);
    EqualsIgnoreCaseSP(c.uf);
    DemaisRecebemPadrao(PropriedadesTeste, c);
    assert ConfigPadrao(PropriedadesTeste) == StrategyPadrao.ConfigTeste;
    StrategyPadrao.CenarioFaixaAlta(6000.00);
  }
}
