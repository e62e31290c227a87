/**
 * The default rule: always applies; offers depend on which income band the client falls in
 * and on each product's own income threshold.
 */
module StrategyPadrao {

  import opened Erros
  import opened Dominio
  import opened Elegibilidade

  /** The rule's configuration: the three income bands and the three products. */
  datatype Config = Config(
    rendaFaixaBaixaMin: Money,
    rendaFaixaBaixaMax: Money,
    rendaFaixaMediaMin: Money,
    rendaFaixaMediaMax: Money,
    rendaFaixaAltaMin: Money,
    semAnuidade: Produto,
    parceiros: Produto,
    cashback: Produto)

  /** seAplica: the catch-all rule applies to every client. */
  predicate SeAplica(cfg: Config, cliente: Cliente)
  {
    true
  }

  datatype Faixa = Baixa | Media | Alta

  /**
   * The band the if/else-if chain selects: low [min, max), else medium [min, max),
   * else high [min, infinity), else none. An earlier band wins when configured bands overlap.
   */
  function FaixaDe(cfg: Config, renda: Money): Option<Faixa>
  {
    if cfg.rendaFaixaBaixaMin <= renda < cfg.rendaFaixaBaixaMax then Some(Baixa)
    else if cfg.rendaFaixaMediaMin <= renda < cfg.rendaFaixaMediaMax then Some(Media)
    else if cfg.rendaFaixaAltaMin <= renda then Some(Alta)
    else None
  }

  function ProdutoDe(cfg: Config, t: TipoCartao): Produto
  {
    match t
    case CartaoSemAnuidade => cfg.semAnuidade
    case CartaoDeParceiros => cfg.parceiros
    case CartaoComCashback => cfg.cashback
  }

  /** The products a band considers: low only no-annual-fee, medium adds partner, high adds cashback. */
  predicate FaixaConsidera(f: Faixa, t: TipoCartao)
  {
    match f
    case Baixa => t == CartaoSemAnuidade
    case Media => t != CartaoComCashback
    case Alta => true
  }

  /** The products a band considers, each with its configuration, in the rule's output order. */
  function Catalogo(cfg: Config, f: Faixa): (os: seq<Oferta>)
    ensures CatalogoOrdenado(os)
    ensures forall k | 0 <= k < |os| :: os[k].produto == ProdutoDe(cfg, os[k].tipo)
    ensures forall t :: FaixaConsidera(f, t) <==> exists k | 0 <= k < |os| :: os[k].tipo == t
  {
    var sem := Oferta(CartaoSemAnuidade, cfg.semAnuidade);
    var parc := Oferta(CartaoDeParceiros, cfg.parceiros);
    var cash := Oferta(CartaoComCashback, cfg.cashback);
    match f
    case Baixa => assert [sem][0] == sem; [sem]
    case Media => assert [sem, parc][0] == sem && [sem, parc][1] == parc; [sem, parc]
    case Alta => assert [sem, parc, cash][0] == sem && [sem, parc, cash][1] == parc && [sem, parc, cash][2] == cash; [sem, parc, cash]
  }

  /** The offers of the default rule, stated per band (the reference for AvaliarCartoes). */
  function CartoesElegiveis(cfg: Config, cliente: Cliente): seq<Cartao>
  {
    match FaixaDe(cfg, cliente.rendaMensal)
    case None => []
    case Some(f) => Aprovados(Catalogo(cfg, f), cliente.rendaMensal)
  }

  function CreateCartaoSemAnuidade(cfg: Config): Cartao
  {
    CartaoAprovado(CartaoSemAnuidade, cfg.semAnuidade)
  }

  function CreateCartaoParceiros(cfg: Config): Cartao
  {
    CartaoAprovado(CartaoDeParceiros, cfg.parceiros)
  }

  function CreateCartaoCashback(cfg: Config): Cartao
  {
    CartaoAprovado(CartaoComCashback, cfg.cashback)
  }

  /** avaliarCartoes: fills a local list band by band, product by product. */
  method AvaliarCartoes(cfg: Config, cliente: Cliente) returns (cartoes: seq<Cartao>)
    ensures cartoes == CartoesElegiveis(cfg, cliente)
  {
    cartoes := [];
    var rendaMensal := cliente.rendaMensal;
    AprovadosUnitarios(Oferta(CartaoSemAnuidade, cfg.semAnuidade), Oferta(CartaoDeParceiros, cfg.parceiros),
                       Oferta(CartaoComCashback, cfg.cashback), rendaMensal);

    if rendaMensal >= cfg.rendaFaixaBaixaMin && rendaMensal < cfg.rendaFaixaBaixaMax {
      if rendaMensal >= cfg.semAnuidade.rendaMinima {
        cartoes := cartoes + [CreateCartaoSemAnuidade(cfg)];
      }
    } else if rendaMensal >= cfg.rendaFaixaMediaMin && rendaMensal < cfg.rendaFaixaMediaMax {
      if rendaMensal >= cfg.semAnuidade.rendaMinima {
        cartoes := cartoes + [CreateCartaoSemAnuidade(cfg)];
      }
      if rendaMensal >= cfg.parceiros.rendaMinima {
        cartoes := cartoes + [CreateCartaoParceiros(cfg)];
      }
    } else if rendaMensal >= cfg.rendaFaixaAltaMin {
      if rendaMensal >= cfg.semAnuidade.rendaMinima {
        cartoes := cartoes + [CreateCartaoSemAnuidade(cfg)];
      }
      if rendaMensal >= cfg.parceiros.rendaMinima {
        cartoes := cartoes + [CreateCartaoParceiros(cfg)];
      }
      if rendaMensal >= cfg.cashback.rendaMinima {
        cartoes := cartoes + [CreateCartaoCashback(cfg)];
      }
    }
  }

  // ---------------------------------------------------------------------------
  // Properties of the offers

  /** At most one card per product, in the order no-annual-fee, partner, cashback. */
  lemma CartoesElegiveisOrdenados(cfg: Config, cliente: Cliente)
    ensures |CartoesElegiveis(cfg, cliente)| <= 3
    ensures OrdemCrescente(CartoesElegiveis(cfg, cliente))
  {
    var f := FaixaDe(cfg, cliente.rendaMensal);
    if f.Some? {
      AprovadosOrdem(Catalogo(cfg, f.value), cliente.rendaMensal);
    }
  }

  /** Every card is approved and carries the configured fee and limit of its own product. */
  lemma CartoesElegiveisAprovados(cfg: Config, cliente: Cliente, i: nat)
    requires i < |CartoesElegiveis(cfg, cliente)|
    ensures var c := CartoesElegiveis(cfg, cliente)[i];
            c == CartaoAprovado(c.tipoCartao, ProdutoDe(cfg, c.tipoCartao)) && c.status == Aprovado
  {
    var f := FaixaDe(cfg, cliente.rendaMensal).value;
    AprovadosCorreto(Catalogo(cfg, f), cliente.rendaMensal, CartoesElegiveis(cfg, cliente)[i]);
  }

  /**
   * A product is offered exactly when the income falls in a band, that band considers the
   * product, and the income reaches the product's threshold.
   */
  lemma CartoesElegiveisOferece(cfg: Config, cliente: Cliente, t: TipoCartao)
    ensures Oferece(CartoesElegiveis(cfg, cliente), t) <==>
              && FaixaDe(cfg, cliente.rendaMensal).Some?
              && FaixaConsidera(FaixaDe(cfg, cliente.rendaMensal).value, t)
              && cliente.rendaMensal >= ProdutoDe(cfg, t).rendaMinima
  {
    var f := FaixaDe(cfg, cliente.rendaMensal);
    if f.Some? {
      var os := Catalogo(cfg, f.value);
      AprovadosOferece(os, cliente.rendaMensal, t);
      if FaixaConsidera(f.value, t) {
        var k :| 0 <= k < |os| && os[k].tipo == t;
      }
    }
  }

  /**
   * Only the selected band contributes: the low band yields at most the no-annual-fee card,
   * the medium band never cashback, and an income outside every band yields nothing.
   */
  lemma FaixasExclusivas(cfg: Config, cliente: Cliente)
    ensures var r := CartoesElegiveis(cfg, cliente);
            var f := FaixaDe(cfg, cliente.rendaMensal);
            && (f == Some(Baixa) ==> forall i | 0 <= i < |r| :: r[i].tipoCartao == CartaoSemAnuidade)
            && (f == Some(Media) ==> forall i | 0 <= i < |r| :: r[i].tipoCartao != CartaoComCashback)
            && (f == None ==> r == [])
  {
    var r := CartoesElegiveis(cfg, cliente);
    forall i | 0 <= i < |r| ensures FaixaConsidera(FaixaDe(cfg, cliente.rendaMensal).value, r[i].tipoCartao) {
      CartoesElegiveisOferece(cfg, cliente, r[i].tipoCartao);
    }
  }

  /** seAplica holds for every client, whatever its fields. */
  lemma SeAplicaSempre(cfg: Config)
    ensures forall cliente :: SeAplica(cfg, cliente)
  {
  }

  // ---------------------------------------------------------------------------
  // The unit-test configuration and scenarios

  const ConfigTeste: Config := Config(
    1000.00, 3000.00, 3000.00, 5000.00, 5000.00,
    Produto(1000.00, 1000.00, 0.00),
    Produto(3000.00, 3000.00, 20.00),
    Produto(5000.00, 5000.00, 15.00))

  /** Low band: only the no-annual-fee card. */
  lemma CenarioFaixaBaixa()
    ensures CartoesElegiveis(ConfigTeste, ClienteExemplo(0, None, 2000.00)) == [CreateCartaoSemAnuidade(ConfigTeste)]
  {
    assert FaixaDe(ConfigTeste, 2000.00) == Some(Baixa);
    AprovadosUnitarios(Oferta(CartaoSemAnuidade, ConfigTeste.semAnuidade), Oferta(CartaoDeParceiros, ConfigTeste.parceiros),
                       Oferta(CartaoComCashback, ConfigTeste.cashback), 2000.00);
  }

  /** Medium band, also at its inclusive lower bound 3000.00: no-annual-fee and partner. */
  lemma CenarioFaixaMedia(renda: Money)
    requires renda == 3000.00 || renda == 4000.00
    ensures CartoesElegiveis(ConfigTeste, ClienteExemplo(0, None, renda))
              == [CreateCartaoSemAnuidade(ConfigTeste), CreateCartaoParceiros(ConfigTeste)]
  {
    assert FaixaDe(ConfigTeste, renda) == Some(Media);
    AprovadosUnitarios(Oferta(CartaoSemAnuidade, ConfigTeste.semAnuidade), Oferta(CartaoDeParceiros, ConfigTeste.parceiros),
                       Oferta(CartaoComCashback, ConfigTeste.cashback), renda);
  }

  /** High band, also at its inclusive lower bound 5000.00: all three cards. */
  lemma CenarioFaixaAlta(renda: Money)
    requires renda == 5000.00 || renda == 6000.00
    ensures CartoesElegiveis(ConfigTeste, ClienteExemplo(0, None, renda))
              == [CreateCartaoSemAnuidade(ConfigTeste), CreateCartaoParceiros(ConfigTeste), CreateCartaoCashback(ConfigTeste)]
  {
    assert FaixaDe(ConfigTeste, renda) == Some(Alta);
    AprovadosUnitarios(Oferta(CartaoSemAnuidade, ConfigTeste.semAnuidade), Oferta(CartaoDeParceiros, ConfigTeste.parceiros),
                       Oferta(CartaoComCashback, ConfigTeste.cashback), renda);
  }

  /** Below the low band: no card. */
  lemma CenarioAbaixoDasFaixas()
    ensures CartoesElegiveis(ConfigTeste, ClienteExemplo(0, None, 500.00)) == []
  {
  }
}
