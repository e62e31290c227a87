/**
 * The other-SP rule: clients from the configured state outside the young-adult band get the
 * no-annual-fee and the cashback cards, each behind its own income threshold.
 */
module StrategyClienteSaoPaulo {

  import opened Erros
  import opened Dominio
  import opened Texto
  import opened Elegibilidade
  import StrategyClienteSPJovemAdulto

  /** The rule's configuration: the young-adult band it excludes, the state code and two products. */
  datatype Config = Config(
    idadeJovemAdultoMin: int,
    idadeJovemAdultoMax: int,
    ufSaoPaulo: string,
    semAnuidade: Produto,
    cashback: Produto)

  /** seAplica: false outside the state; inside it, true unless the age is in the young-adult band. */
  predicate SeAplica(cfg: Config, cliente: Cliente)
  {
    if !EqualsIgnoreCase(cfg.ufSaoPaulo, cliente.uf) then false
    else
      var isJovemAdulto := cliente.idade >= cfg.idadeJovemAdultoMin && cliente.idade < cfg.idadeJovemAdultoMax;
      !isJovemAdulto
  }

  /** The two products this rule considers, in output order. */
  function Catalogo(cfg: Config): (os: seq<Oferta>)
    ensures CatalogoOrdenado(os)
  {
    [Oferta(CartaoSemAnuidade, cfg.semAnuidade), Oferta(CartaoComCashback, cfg.cashback)]
  }

  /** The offers of the other-SP rule (the reference for AvaliarCartoes). */
  function CartoesElegiveis(cfg: Config, cliente: Cliente): seq<Cartao>
  {
    Aprovados(Catalogo(cfg), cliente.rendaMensal)
  }

  /** avaliarCartoes: two independent guarded appends to a local list. */
  method AvaliarCartoes(cfg: Config, cliente: Cliente) returns (cartoes: seq<Cartao>)
    ensures cartoes == CartoesElegiveis(cfg, cliente)
  {
    var semAnuidade, cashback := Oferta(CartaoSemAnuidade, cfg.semAnuidade), Oferta(CartaoComCashback, cfg.cashback);
    assert Catalogo(cfg) == [semAnuidade] + [cashback];
    AprovadosConcatenados([semAnuidade], [cashback], cliente.rendaMensal);
    cartoes := [];

    if cliente.rendaMensal >= cfg.semAnuidade.rendaMinima {
      cartoes := cartoes + [CartaoAprovado(CartaoSemAnuidade, cfg.semAnuidade)];
    }

    if cliente.rendaMensal >= cfg.cashback.rendaMinima {
      cartoes := cartoes + [CartaoAprovado(CartaoComCashback, cfg.cashback)];
    }
  }

  /** Outside the configured state (null included) the rule never applies; inside it, exactly outside the band. */
  lemma SeAplicaCaracterizacao(cfg: Config, cliente: Cliente)
    ensures !EqualsIgnoreCase(cfg.ufSaoPaulo, cliente.uf) ==> !SeAplica(cfg, cliente)
    ensures EqualsIgnoreCase(cfg.ufSaoPaulo, cliente.uf) ==>
              (SeAplica(cfg, cliente) <==> !(cfg.idadeJovemAdultoMin <= cliente.idade < cfg.idadeJovemAdultoMax))
  {
  }

  /** The unit test's cases with band [25, 30) and state "SP". */
  lemma SeAplicaLimites(cfg: Config)
    requires cfg.idadeJovemAdultoMin == 25 && cfg.idadeJovemAdultoMax == 30 && cfg.ufSaoPaulo == "SP"
    ensures SeAplica(cfg, ClienteExemplo(20, Some("SP"), 0.0)) && SeAplica(cfg, ClienteExemplo(31, Some("SP"), 0.0))
    ensures !SeAplica(cfg, ClienteExemplo(25, Some("SP"), 0.0)) && !SeAplica(cfg, ClienteExemplo(29, Some("SP"), 0.0))
    ensures !SeAplica(cfg, ClienteExemplo(20, Some("RJ"), 0.0)) && !SeAplica(cfg, ClienteExemplo(27, Some("RJ"), 0.0))
  {
    EqualsIgnoreCaseSP(Some("SP"));
    EqualsIgnoreCaseSP(Some("RJ"));
  }

  /**
   * With the same band and state code, this rule and the SP young-adult rule never both apply,
   * and together they apply to exactly the clients of that state.
   */
  lemma ParticaoDosClientesSP(cfg: Config, outra: StrategyClienteSPJovemAdulto.Config, cliente: Cliente)
    requires outra.idadeJovemAdultoMin == cfg.idadeJovemAdultoMin
    requires outra.idadeJovemAdultoMax == cfg.idadeJovemAdultoMax
    requires outra.ufSaoPaulo == cfg.ufSaoPaulo
    ensures !(SeAplica(cfg, cliente) && StrategyClienteSPJovemAdulto.SeAplica(outra, cliente))
    ensures (SeAplica(cfg, cliente) || StrategyClienteSPJovemAdulto.SeAplica(outra, cliente))
              <==> EqualsIgnoreCase(cfg.ufSaoPaulo, cliente.uf)
  {
  }

  /**
   * The no-annual-fee card is offered exactly when the income reaches its threshold, the cashback
   * card exactly when the income reaches its own, the partner card never; at most two cards,
   * no-annual-fee first, each approved with its product's fee and limit.
   */
  lemma CartoesElegiveisPortoes(cfg: Config, cliente: Cliente)
    ensures var r := CartoesElegiveis(cfg, cliente);
            && (Oferece(r, CartaoSemAnuidade) <==> cliente.rendaMensal >= cfg.semAnuidade.rendaMinima)
            && (Oferece(r, CartaoComCashback) <==> cliente.rendaMensal >= cfg.cashback.rendaMinima)
            && !Oferece(r, CartaoDeParceiros)
            && |r| <= 2
            && OrdemCrescente(r)
            && (forall i | 0 <= i < |r| ::
                  r[i] == CartaoAprovado(CartaoSemAnuidade, cfg.semAnuidade) ||
                  r[i] == CartaoAprovado(CartaoComCashback, cfg.cashback))
  {
    var os := Catalogo(cfg);
    var renda := cliente.rendaMensal;
    assert os[0].tipo == CartaoSemAnuidade && os[1].tipo == CartaoComCashback;
    AprovadosOferece(os, renda, CartaoSemAnuidade);
    AprovadosOferece(os, renda, CartaoComCashback);
    AprovadosOferece(os, renda, CartaoDeParceiros);
    AprovadosOrdem(os, renda);
    var r := CartoesElegiveis(cfg, cliente);
    forall i | 0 <= i < |r|
      ensures r[i] == CartaoAprovado(CartaoSemAnuidade, cfg.semAnuidade) || r[i] == CartaoAprovado(CartaoComCashback, cfg.cashback)
    {
      AprovadosCorreto(os, renda, r[i]);
    }
  }

  const ConfigTeste: Config := Config(25, 30, "SP", Produto(1000.00, 1000.00, 0.00), Produto(5000.00, 5000.00, 15.00))

  /** Income 2000 gets the no-annual-fee card, 6000 both cards, 500 none. */
  lemma CenariosDoTeste()
    ensures CartoesElegiveis(ConfigTeste, ClienteExemplo(20, Some("SP"), 2000.00))
              == [CartaoAprovado(CartaoSemAnuidade, ConfigTeste.semAnuidade)]
    ensures CartoesElegiveis(ConfigTeste, ClienteExemplo(20, Some("SP"), 6000.00))
              == [CartaoAprovado(CartaoSemAnuidade, ConfigTeste.semAnuidade), CartaoAprovado(CartaoComCashback, ConfigTeste.cashback)]
    ensures CartoesElegiveis(ConfigTeste, ClienteExemplo(20, Some("SP"), 500.00)) == []
  {
  }
}
