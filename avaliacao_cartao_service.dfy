/**
 * The card-evaluation service: the first-match rule resolver and the profile invariant check.
 */
module AvaliacaoCartaoService {

  import opened Erros
  import opened Dominio
  import opened Texto
  import opened ValidadorUtil
  import opened StrategyAvaliacaoCartao

  const MensagemSemEstrategia: string := "Não foi possível avaliar os cartões elegíveis"
  const MensagemIdadeInconsistente: string := "Idade informada não corresponde à data de nascimento"

  function MensagemIdadeMinima(idadeMinima: int): string
  {
    "Cliente deve ter pelo menos " + IntToString(idadeMinima) + " anos"
  }

  /** The minimum-age message spells out the configured minimum: different minimums, different messages. */
  lemma MensagemIdadeMinimaIdentifica(a: int, b: int)
    ensures MensagemIdadeMinima(a) == MensagemIdadeMinima(b) ==> a == b
  {
    var prefixo, sufixo := "Cliente deve ter pelo menos ", " anos";
    var m := MensagemIdadeMinima(a);
    if m == MensagemIdadeMinima(b) {
      assert m == prefixo + IntToString(a) + sufixo;
      assert m[|prefixo|..|m| - |sufixo|] == IntToString(a);
      assert MensagemIdadeMinima(b)[|prefixo|..|m| - |sufixo|] == IntToString(b);
      IntToStringInjetiva(a, b);
    }
  }

  // ---------------------------------------------------------------------------
  // avaliarCartoesDisponiveis

  /** A call the stream pipeline makes on the rule at position `indice` of the list. */
  datatype Chamada = ChamadaSeAplica(indice: nat) | ChamadaAvaliarCartoes(indice: nat)

  /**
   * The lazy filter/findFirst/map pipeline from position `k` on: its result and the rule calls
   * it makes, in order.
   */
  function Percorrer(estrategias: seq<Estrategia>, cliente: Cliente, k: nat): (Result<seq<Cartao>>, seq<Chamada>)
    requires k <= |estrategias|
    decreases |estrategias| - k
  {
    if k == |estrategias| then
      (Err(BusinessException(MensagemSemEstrategia)), [])
    else if SeAplica(estrategias[k], cliente) then
      (Ok(AvaliarCartoes(estrategias[k], cliente)), [ChamadaSeAplica(k), ChamadaAvaliarCartoes(k)])
    else
      var (resultado, chamadas) := Percorrer(estrategias, cliente, k + 1);
      (resultado, [ChamadaSeAplica(k)] + chamadas)
  }

  /** avaliarCartoesDisponiveis. */
  function AvaliarCartoesDisponiveis(estrategias: seq<Estrategia>, cliente: Cliente): Result<seq<Cartao>>
  {
    Percorrer(estrategias, cliente, 0).0
  }

  /** The rule calls avaliarCartoesDisponiveis makes. */
  function Chamadas(estrategias: seq<Estrategia>, cliente: Cliente): seq<Chamada>
  {
    Percorrer(estrategias, cliente, 0).1
  }

  /** `i` is the position of the first rule that applies. */
  predicate PrimeiraAplicavel(estrategias: seq<Estrategia>, cliente: Cliente, i: int)
  {
    0 <= i < |estrategias| && SeAplica(estrategias[i], cliente) &&
    forall j | 0 <= j < i :: !SeAplica(estrategias[j], cliente)
  }

  /** seAplica calls on positions k, k+1, ..., n-1. */
  function ChamadasSeAplica(k: nat, n: nat): (r: seq<Chamada>)
    requires k <= n
    ensures |r| == n - k && forall j | 0 <= j < |r| :: r[j] == ChamadaSeAplica(k + j)
  {
    seq(n - k, j requires 0 <= j < n - k => ChamadaSeAplica(k + j))
  }

  lemma {:induction false} PercorrerAteAplicavel(estrategias: seq<Estrategia>, cliente: Cliente, k: nat, i: nat)
    requires k <= i < |estrategias| && SeAplica(estrategias[i], cliente)
    requires forall j | k <= j < i :: !SeAplica(estrategias[j], cliente)
    ensures Percorrer(estrategias, cliente, k)
              == (Ok(AvaliarCartoes(estrategias[i], cliente)), ChamadasSeAplica(k, i + 1) + [ChamadaAvaliarCartoes(i)])
    decreases i - k
  {
    if k < i {
      PercorrerAteAplicavel(estrategias, cliente, k + 1, i);
      assert [ChamadaSeAplica(k)] + ChamadasSeAplica(k + 1, i + 1) == ChamadasSeAplica(k, i + 1);
      assert [ChamadaSeAplica(k)] + (ChamadasSeAplica(k + 1, i + 1) + [ChamadaAvaliarCartoes(i)])
          == ChamadasSeAplica(k, i + 1) + [ChamadaAvaliarCartoes(i)];
    } else {
      assert ChamadasSeAplica(k, k + 1) == [ChamadaSeAplica(k)];
      assert ChamadasSeAplica(k, k + 1) + [ChamadaAvaliarCartoes(k)] == [ChamadaSeAplica(k), ChamadaAvaliarCartoes(k)];
    }
  }

  lemma {:induction false} PercorrerSemAplicavel(estrategias: seq<Estrategia>, cliente: Cliente, k: nat)
    requires k <= |estrategias|
    requires forall j | k <= j < |estrategias| :: !SeAplica(estrategias[j], cliente)
    ensures Percorrer(estrategias, cliente, k)
              == (Err(BusinessException(MensagemSemEstrategia)), ChamadasSeAplica(k, |estrategias|))
    decreases |estrategias| - k
  {
    if k < |estrategias| {
      PercorrerSemAplicavel(estrategias, cliente, k + 1);
      assert [ChamadaSeAplica(k)] + ChamadasSeAplica(k + 1, |estrategias|) == ChamadasSeAplica(k, |estrategias|);
    }
  }

  /**
   * The result is exactly the offers of the first rule, in list order, that applies; seAplica is
   * asked of that rule and of those before it only, and avaliarCartoes of that rule only, once.
   */
  lemma ResultadoDaPrimeiraAplicavel(estrategias: seq<Estrategia>, cliente: Cliente, i: int)
    requires PrimeiraAplicavel(estrategias, cliente, i)
    ensures AvaliarCartoesDisponiveis(estrategias, cliente) == Ok(AvaliarCartoes(estrategias[i], cliente))
    ensures Chamadas(estrategias, cliente) == ChamadasSeAplica(0, i + 1) + [ChamadaAvaliarCartoes(i)]
  {
    PercorrerAteAplicavel(estrategias, cliente, 0, i);
  }

  /** The call fails, with the business message and without any avaliarCartoes call, exactly when no rule applies. */
  lemma FalhaSeNenhumaAplica(estrategias: seq<Estrategia>, cliente: Cliente)
    ensures (forall j | 0 <= j < |estrategias| :: !SeAplica(estrategias[j], cliente))
            <==> AvaliarCartoesDisponiveis(estrategias, cliente).Err?
    ensures AvaliarCartoesDisponiveis(estrategias, cliente).Err? ==>
              && AvaliarCartoesDisponiveis(estrategias, cliente) == Err(BusinessException(MensagemSemEstrategia))
              && Chamadas(estrategias, cliente) == ChamadasSeAplica(0, |estrategias|)
  {
    if forall j | 0 <= j < |estrategias| :: !SeAplica(estrategias[j], cliente) {
      PercorrerSemAplicavel(estrategias, cliente, 0);
    } else {
      var j :| 0 <= j < |estrategias| && SeAplica(estrategias[j], cliente);
      var i := ExistePrimeiraAplicavel(estrategias, cliente, j);
      ResultadoDaPrimeiraAplicavel(estrategias, cliente, i);
    }
  }

  /** Some rule applies, so a first one does. */
  lemma {:induction false} ExistePrimeiraAplicavel(estrategias: seq<Estrategia>, cliente: Cliente, j: int) returns (i: int)
    requires 0 <= j < |estrategias| && SeAplica(estrategias[j], cliente)
    ensures PrimeiraAplicavel(estrategias, cliente, i) && i <= j
    decreases j
  {
    if exists j' | 0 <= j' < j :: SeAplica(estrategias[j'], cliente) {
      var j' :| 0 <= j' < j && SeAplica(estrategias[j'], cliente);
      i := ExistePrimeiraAplicavel(estrategias, cliente, j');
    } else {
      i := j;
    }
  }

  /**
   * avaliarCartoes is called at most once, as the last call, and only on a rule whose seAplica
   * held; so offers of different rules are never merged.
   */
  lemma AvaliarCartoesSoEmAplicavel(estrategias: seq<Estrategia>, cliente: Cliente)
    ensures var cs := Chamadas(estrategias, cliente);
            forall k | 0 <= k < |cs| && cs[k].ChamadaAvaliarCartoes? ::
              k == |cs| - 1 && cs[k].indice < |estrategias| && SeAplica(estrategias[cs[k].indice], cliente)
  {
    FalhaSeNenhumaAplica(estrategias, cliente);
    if exists j | 0 <= j < |estrategias| :: SeAplica(estrategias[j], cliente) {
      var j :| 0 <= j < |estrategias| && SeAplica(estrategias[j], cliente);
      var i := ExistePrimeiraAplicavel(estrategias, cliente, j);
      ResultadoDaPrimeiraAplicavel(estrategias, cliente, i);
    }
  }

  /** If the last rule applies, for instance an always-applicable default, the call never fails. */
  lemma NuncaFalhaSeUltimaAplica(estrategias: seq<Estrategia>, cliente: Cliente)
    requires |estrategias| > 0 && SeAplica(estrategias[|estrategias| - 1], cliente)
    ensures AvaliarCartoesDisponiveis(estrategias, cliente).Ok?
  {
    FalhaSeNenhumaAplica(estrategias, cliente);
  }

  // ---------------------------------------------------------------------------
  // validarCliente

  /** validarCliente: minimum age first, then consistency of the stated age with the birth date. */
  function ValidarCliente(idadeMinima: int, cliente: Cliente, hoje: LocalDate): Outcome
  {
    match CalcularIdade(cliente.dataNascimento, hoje)
    case Err(e) => Fail(e)
    case Ok(idadeCalculada) =>
      if idadeCalculada < idadeMinima then Fail(BusinessException(MensagemIdadeMinima(idadeMinima)))
      else if cliente.idade != idadeCalculada then Fail(BusinessException(MensagemIdadeInconsistente))
      else Pass
  }

  /**
   * For a birth date not after today: success exactly when the complete years reach the minimum
   * and equal the stated age; too young fails with the minimum-age message whatever the stated
   * age; old enough but inconsistent fails with the mismatch message.
   */
  lemma ValidarClienteCaracterizacao(idadeMinima: int, cliente: Cliente, hoje: LocalDate)
    requires cliente.dataNascimento.Some? && DateLe(cliente.dataNascimento.value, hoje)
    ensures var idade := CompleteYears(cliente.dataNascimento.value, hoje);
            && (ValidarCliente(idadeMinima, cliente, hoje).Pass? <==> idade >= idadeMinima && cliente.idade == idade)
            && (idade < idadeMinima ==>
                  ValidarCliente(idadeMinima, cliente, hoje) == Fail(BusinessException(MensagemIdadeMinima(idadeMinima))))
            && (idade >= idadeMinima && cliente.idade != idade ==>
                  ValidarCliente(idadeMinima, cliente, hoje) == Fail(BusinessException(MensagemIdadeInconsistente)))
  {
  }

  /**
   * For every present birth date, past or future: success exactly when the computed age reaches
   * the minimum and equals the stated age, with the minimum-age check first.
   */
  lemma ValidarClienteIdadeCalculada(idadeMinima: int, cliente: Cliente, hoje: LocalDate)
    requires cliente.dataNascimento.Some?
    ensures CalcularIdade(cliente.dataNascimento, hoje).Ok?
    ensures var idade := CalcularIdade(cliente.dataNascimento, hoje).value;
            && (ValidarCliente(idadeMinima, cliente, hoje).Pass? <==> idade >= idadeMinima && cliente.idade == idade)
            && (idade < idadeMinima ==>
                  ValidarCliente(idadeMinima, cliente, hoje) == Fail(BusinessException(MensagemIdadeMinima(idadeMinima))))
            && (idade >= idadeMinima && cliente.idade != idade ==>
                  ValidarCliente(idadeMinima, cliente, hoje) == Fail(BusinessException(MensagemIdadeInconsistente)))
  {
  }

  /** A client that passes is old enough and compatible in the sense of ValidadorUtil's own predicates. */
  lemma ValidarClienteUsaPredicadosDoUtil(idadeMinima: int, cliente: Cliente, hoje: LocalDate)
    ensures ValidarCliente(idadeMinima, cliente, hoje).Pass? ==>
              && IsIdadeMaiorOuIgualA(cliente.idade, idadeMinima)
              && IsIdadeCompativel(cliente.idade, cliente.dataNascimento, hoje) == Ok(true)
  {
  }

  /** A null birth date makes the check throw IllegalArgumentException; a future one fails any positive minimum age. */
  lemma ValidarClienteDataInvalida(idadeMinima: int, cliente: Cliente, hoje: LocalDate)
    ensures cliente.dataNascimento.None? ==>
              ValidarCliente(idadeMinima, cliente, hoje) == Fail(IllegalArgumentException(MensagemDataNula))
    ensures cliente.dataNascimento.Some? && !DateLe(cliente.dataNascimento.value, hoje) && idadeMinima > 0 ==>
              ValidarCliente(idadeMinima, cliente, hoje) == Fail(BusinessException(MensagemIdadeMinima(idadeMinima)))
  {
  }

  /** The unit test's clients, for any today: 25 born 25 years back passes, 17 born 17 years back
      is too young, 25 born 30 years back is inconsistent. */
  lemma ValidarClienteCenarios(hoje: LocalDate)
    ensures ValidarCliente(18, Cliente("Cliente Teste", "123.456.789-10", 25, Some(MinusYears(hoje, 25)), Some("SP"),
                                       4000.00, "cliente@teste.com", "11999992020"), hoje) == Pass
    ensures ValidarCliente(18, Cliente("Cliente Teste", "123.456.789-10", 17, Some(MinusYears(hoje, 17)), None,
                                       0.0, "", ""), hoje)
              == Fail(BusinessException("Cliente deve ter pelo menos 18 anos"))
    ensures ValidarCliente(18, Cliente("Cliente Teste", "123.456.789-10", 25, Some(MinusYears(hoje, 30)), None,
                                       0.0, "", ""), hoje)
              == Fail(BusinessException(MensagemIdadeInconsistente))
  {
    CalcularIdadeMinusYears(hoje, 25);
    CalcularIdadeMinusYears(hoje, 17);
    CalcularIdadeMinusYears(hoje, 30);
    IntToStringExamples();
    assert MensagemIdadeMinima(18) == "Cliente deve ter pelo menos 18 anos";
  }
}
