/**
 * The two-operation rule capability (seAplica, avaliarCartoes) as a tagged datatype over the
 * four concrete rules.
 */
module StrategyAvaliacaoCartao {

  import opened Dominio
  import StrategyClienteJovem
  import StrategyClienteSPJovemAdulto
  import StrategyClienteSaoPaulo
  import StrategyPadrao

  /** A configured rule instance. */
  datatype Estrategia =
    | ClienteJovem(jovem: StrategyClienteJovem.Config)
    | ClienteSPJovemAdulto(spJovemAdulto: StrategyClienteSPJovemAdulto.Config)
    | ClienteSaoPaulo(saoPaulo: StrategyClienteSaoPaulo.Config)
    | Padrao(padrao: StrategyPadrao.Config)

  /** seAplica, dispatched to the rule. */
  predicate SeAplica(e: Estrategia, cliente: Cliente)
  {
    match e
    case ClienteJovem(cfg) => StrategyClienteJovem.SeAplica(cfg, cliente)
    case ClienteSPJovemAdulto(cfg) => StrategyClienteSPJovemAdulto.SeAplica(cfg, cliente)
    case ClienteSaoPaulo(cfg) => StrategyClienteSaoPaulo.SeAplica(cfg, cliente)
    case Padrao(cfg) => StrategyPadrao.SeAplica(cfg, cliente)
  }

  /** avaliarCartoes, dispatched to the rule. */
  function AvaliarCartoes(e: Estrategia, cliente: Cliente): seq<Cartao>
  {
    match e
    case ClienteJovem(cfg) => StrategyClienteJovem.CartoesElegiveis(cfg, cliente)
    case ClienteSPJovemAdulto(cfg) => StrategyClienteSPJovemAdulto.AvaliarCartoes(cfg, cliente)
    case ClienteSaoPaulo(cfg) => StrategyClienteSaoPaulo.CartoesElegiveis(cfg, cliente)
    case Padrao(cfg) => StrategyPadrao.CartoesElegiveis(cfg, cliente)
  }

  /** avaliarCartoes run through each rule's own imperative implementation. */
  method Avaliar(e: Estrategia, cliente: Cliente) returns (cartoes: seq<Cartao>)
    ensures cartoes == AvaliarCartoes(e, cliente)
  {
    match e
    case ClienteJovem(cfg) => cartoes := StrategyClienteJovem.AvaliarCartoes(cfg, cliente);
    case ClienteSPJovemAdulto(cfg) => cartoes := StrategyPadrao.AvaliarCartoes(cfg.strategyPadrao, cliente);
    case ClienteSaoPaulo(cfg) => cartoes := StrategyClienteSaoPaulo.AvaliarCartoes(cfg, cliente);
    case Padrao(cfg) => cartoes := StrategyPadrao.AvaliarCartoes(cfg, cliente);
  }
}
