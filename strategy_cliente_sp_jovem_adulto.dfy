/**
 * The SP young-adult rule: clients from the configured state within the young-adult age
 * band get exactly the default rule's offers.
 */
module StrategyClienteSPJovemAdulto {

  import opened Erros
  import opened Dominio
  import opened Texto
  import StrategyPadrao

  /** The rule's configuration: the default rule it delegates to, the age band and the state code. */
  datatype Config = Config(
    strategyPadrao: StrategyPadrao.Config,
    idadeJovemAdultoMin: int,
    idadeJovemAdultoMax: int,
    ufSaoPaulo: string)

  /** seAplica: the state equals ufSaoPaulo ignoring case and the age lies in [min, max). */
  predicate SeAplica(cfg: Config, cliente: Cliente)
  {
    EqualsIgnoreCase(cfg.ufSaoPaulo, cliente.uf) &&
    cliente.idade >= cfg.idadeJovemAdultoMin &&
    cliente.idade < cfg.idadeJovemAdultoMax
  }

  /**
   * avaliarCartoes: the default rule's offers for the same client. The contract is the delegation
   * itself, which is the source's whole promise; OfertasSoDependemDaRenda states what follows from it.
   */
  function AvaliarCartoes(cfg: Config, cliente: Cliente): (r: seq<Cartao>)
    ensures r == StrategyPadrao.CartoesElegiveis(cfg.strategyPadrao, cliente)
  {
    StrategyPadrao.CartoesElegiveis(cfg.strategyPadrao, cliente)
  }

  /** A client whose state is null never matches. */
  lemma UfNulaNuncaAplica(cfg: Config, cliente: Cliente)
    requires cliente.uf.None?
    ensures !SeAplica(cfg, cliente)
  {
  }

  /** The offers depend only on the income and the default rule's configuration, not on age or state. */
  lemma OfertasSoDependemDaRenda(cfg: Config, a: Cliente, b: Cliente)
    requires a.rendaMensal == b.rendaMensal
    ensures AvaliarCartoes(cfg, a) == AvaliarCartoes(cfg, b)
  {
  }

  /** The unit test's boundaries with band [25, 30) and state "SP". */
  lemma SeAplicaLimites(cfg: Config, idade: int)
    requires cfg.idadeJovemAdultoMin == 25 && cfg.idadeJovemAdultoMax == 30 && cfg.ufSaoPaulo == "SP"
    ensures idade in {25, 27, 29} ==> SeAplica(cfg, ClienteExemplo(idade, Some("SP"), 0.0))
    ensures idade in {24, 30, 31} ==> !SeAplica(cfg, ClienteExemplo(idade, Some("SP"), 0.0))
    ensures !SeAplica(cfg, ClienteExemplo(27, Some("RJ"), 0.0))
    ensures SeAplica(cfg, ClienteExemplo(27, Some("sp"), 0.0))
  {
    EqualsIgnoreCaseSP(Some("SP"));
    EqualsIgnoreCaseSP(Some("RJ"));
    EqualsIgnoreCaseSP(Some("sp"));
  }
}
