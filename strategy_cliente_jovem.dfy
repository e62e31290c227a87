/**
 * The young-client rule: clients in the young age band get the no-annual-fee card when
 * their income reaches its threshold.
 */
module StrategyClienteJovem {

  import opened Erros
  import opened Dominio
  import opened Elegibilidade

  /** The rule's configuration: the young age band [idadeMinima, idadeJovemMaxima) and the product. */
  datatype Config = Config(idadeMinima: int, idadeJovemMaxima: int, semAnuidade: Produto)

  /** seAplica: the age lies in [idadeMinima, idadeJovemMaxima). */
  predicate SeAplica(cfg: Config, cliente: Cliente)
  {
    cliente.idade >= cfg.idadeMinima && cliente.idade < cfg.idadeJovemMaxima
  }

  /** The single product this rule considers. */
  function Catalogo(cfg: Config): seq<Oferta>
  {
    [Oferta(CartaoSemAnuidade, cfg.semAnuidade)]
  }

  /** The offers of the young-client rule (the reference for AvaliarCartoes). */
  function CartoesElegiveis(cfg: Config, cliente: Cliente): seq<Cartao>
  {
    Aprovados(Catalogo(cfg), cliente.rendaMensal)
  }

  /** avaliarCartoes: one guarded append to a local list. */
  method AvaliarCartoes(cfg: Config, cliente: Cliente) returns (cartoes: seq<Cartao>)
    ensures cartoes == CartoesElegiveis(cfg, cliente)
  {
    cartoes := [];
    if cliente.rendaMensal >= cfg.semAnuidade.rendaMinima {
      cartoes := cartoes + [CartaoAprovado(CartaoSemAnuidade, cfg.semAnuidade)];
    }
  }

  /** seAplica reads only the age: clients of equal age are treated alike, whatever their state or income. */
  lemma SeAplicaSoDependeDaIdade(cfg: Config, a: Cliente, b: Cliente)
    requires a.idade == b.idade
    ensures SeAplica(cfg, a) == SeAplica(cfg, b)
  {
  }

  /** The band is inclusive below and exclusive above (the unit test's ages with band [18, 25)). */
  lemma SeAplicaLimites(cfg: Config, cliente: Cliente)
    requires cfg.idadeMinima == 18 && cfg.idadeJovemMaxima == 25
    ensures cliente.idade in {18, 20, 24} ==> SeAplica(cfg, cliente)
    ensures cliente.idade in {17, 25, 26} ==> !SeAplica(cfg, cliente)
  {
  }

  /**
   * The result is either empty or exactly the configured approved no-annual-fee card, and the
   * card is offered exactly when the income reaches the threshold (equality counts).
   */
  lemma CartoesElegiveisForma(cfg: Config, cliente: Cliente)
    ensures var r := CartoesElegiveis(cfg, cliente);
            && (r == [] || r == [Cartao(CartaoSemAnuidade, cfg.semAnuidade.anuidade, cfg.semAnuidade.limite, Aprovado)])
            && (r != [] <==> cliente.rendaMensal >= cfg.semAnuidade.rendaMinima)
  {
    AprovadosVazio(Catalogo(cfg), cliente.rendaMensal);
  }

  const ConfigTeste: Config := Config(18, 25, Produto(1000.00, 1000.00, 0.00))

  /** Income 1500 gets one approved card with fee 0.00 and limit 1000.00; income 500 gets none. */
  lemma CenariosDoTeste()
    ensures CartoesElegiveis(ConfigTeste, ClienteExemplo(20, None, 1500.00)) == [Cartao(CartaoSemAnuidade, 0.00, 1000.00, Aprovado)]
    ensures CartoesElegiveis(ConfigTeste, ClienteExemplo(20, None, 500.00)) == []
  {
  }
}
