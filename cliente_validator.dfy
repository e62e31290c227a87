/**
 * The required-field validator for an incoming client request: an ordered sequence of
 * null/blank guards, each failing with its own business message.
 */
module ClienteValidator {

  import opened Erros
  import opened Dominio
  import opened Texto

  /** The client as received: every field may be absent (null). */
  datatype ClienteDTO = ClienteDTO(
    nome: Option<string>,
    cpf: Option<string>,
    idade: Option<int>,
    dataNascimento: Option<LocalDate>,
    uf: Option<string>,
    rendaMensal: Option<Money>,
    email: Option<string>,
    telefoneWhatsapp: Option<string>)

  datatype ClienteRequest = ClienteRequest(cliente: Option<ClienteDTO>)

  const MensagemDadosNulos := "Dados do cliente não podem ser nulos"

  /** A text field passes when it is present and not blank. */
  predicate Preenchido(s: Option<string>)
  {
    s.Some? && !IsBlank(s.value)
  }

  // ---------------------------------------------------------------------------
  // The checked fields, each with its guard and its message

  datatype Campo = Nome | Cpf | Idade | DataNascimento | Uf | RendaMensal | Email | TelefoneWhatsapp

  /** The order in which the fields are checked. */
  const Ordem: seq<Campo> := [Nome, Cpf, Idade, DataNascimento, Uf, RendaMensal, Email, TelefoneWhatsapp]

  /** What a field needs: text fields present and not blank; idade, date and income only present. */
  predicate CampoOk(dto: ClienteDTO, k: Campo)
  {
    match k
    case Nome => Preenchido(dto.nome)
    case Cpf => Preenchido(dto.cpf)
    case Idade => dto.idade.Some?
    case DataNascimento => dto.dataNascimento.Some?
    case Uf => Preenchido(dto.uf)
    case RendaMensal => dto.rendaMensal.Some?
    case Email => Preenchido(dto.email)
    case TelefoneWhatsapp => Preenchido(dto.telefoneWhatsapp)
  }

  /** The business message of a failing field. */
  function Mensagem(k: Campo): string
  {
    match k
    case Nome => "Nome do cliente é obrigatório"
    case Cpf => "CPF do cliente é obrigatório"
    case Idade => "Idade do cliente é obrigatória"
    case DataNascimento => "Data de nascimento é obrigatória"
    case Uf => "UF do cliente é obrigatória"
    case RendaMensal => "Renda mensal do cliente é obrigatória"
    case Email => "Email do cliente é obrigatório"
    case TelefoneWhatsapp => "Telefone/WhatsApp do cliente é obrigatório"
  }

  /** The first letter of each message; no two fields share one. */
  function Inicial(k: Campo): char
  {
    match k
    case Nome => 'N' case Cpf => 'C' case Idade => 'I' case DataNascimento => 'D'
    case Uf => 'U' case RendaMensal => 'R' case Email => 'E' case TelefoneWhatsapp => 'T'
  }

  lemma InicialDaMensagem(k: Campo)
    ensures |Mensagem(k)| > 0 && Mensagem(k)[0] == Inicial(k)
  {
  }

  /** Every field has its own message, so the message names the field that failed. */
  lemma MensagemIdentificaCampo(k1: Campo, k2: Campo)
    ensures Mensagem(k1) == Mensagem(k2) ==> k1 == k2
  {
    InicialDaMensagem(k1);
    InicialDaMensagem(k2);
  }

  /** validar: the guards in source order (nome, cpf, idade, dataNascimento, uf, rendaMensal,
      email, telefoneWhatsapp); the first failing one decides the outcome. */
  function Validar(req: Option<ClienteRequest>): (r: Outcome)
    ensures r.Fail? ==> r.error.BusinessException?
    ensures (req.None? || req.value.cliente.None?) ==> r == Fail(BusinessException(MensagemDadosNulos))
  {
    if req.None? || req.value.cliente.None? then Fail(BusinessException(MensagemDadosNulos))
    else
      var dto := req.value.cliente.value;
      if !CampoOk(dto, Nome) then Fail(BusinessException(Mensagem(Nome)))
      else if !CampoOk(dto, Cpf) then Fail(BusinessException(Mensagem(Cpf)))
      else if !CampoOk(dto, Idade) then Fail(BusinessException(Mensagem(Idade)))
      else if !CampoOk(dto, DataNascimento) then Fail(BusinessException(Mensagem(DataNascimento)))
      else if !CampoOk(dto, Uf) then Fail(BusinessException(Mensagem(Uf)))
      else if !CampoOk(dto, RendaMensal) then Fail(BusinessException(Mensagem(RendaMensal)))
      else if !CampoOk(dto, Email) then Fail(BusinessException(Mensagem(Email)))
      else if !CampoOk(dto, TelefoneWhatsapp) then Fail(BusinessException(Mensagem(TelefoneWhatsapp)))
      else Pass
  }

  // ---------------------------------------------------------------------------
  // An independent reference: the field table scanned in order

  /** The first field of `campos`, from index i on, that fails its check; None when all pass. */
  function PrimeiraFalha(dto: ClienteDTO, campos: seq<Campo>, i: nat): (r: Option<Campo>)
    ensures r.Some? ==> r.value in campos && !CampoOk(dto, r.value)
    decreases |campos| - i
  {
    if i >= |campos| then None
    else if !CampoOk(dto, campos[i]) then Some(campos[i])
    else PrimeiraFalha(dto, campos, i + 1)
  }

  /** The scan finds nothing exactly when every field from index i on passes. */
  lemma {:induction false} PrimeiraFalhaPassa(dto: ClienteDTO, campos: seq<Campo>, i: nat)
    ensures PrimeiraFalha(dto, campos, i) == None <==> forall j :: i <= j < |campos| ==> CampoOk(dto, campos[j])
    decreases |campos| - i
  {
    if i < |campos| {
      PrimeiraFalhaPassa(dto, campos, i + 1);
    }
  }

  /** The scan finds exactly the first failing field: the one at index k when all from i up to it pass. */
  lemma {:induction false} PrimeiraFalhaIndice(dto: ClienteDTO, campos: seq<Campo>, i: nat, k: nat)
    requires i <= k < |campos| && !CampoOk(dto, campos[k])
    requires forall j :: i <= j < k ==> CampoOk(dto, campos[j])
    ensures PrimeiraFalha(dto, campos, i) == Some(campos[k])
    decreases k - i
  {
    if i < k {
      PrimeiraFalhaIndice(dto, campos, i + 1, k);
    }
  }

  /** The outcome validar reports for a scan result: the field's message, or normal return. */
  function Relatorio(f: Option<Campo>): Outcome
  {
    if f.None? then Pass else Fail(BusinessException(Mensagem(f.value)))
  }

  /** The guard chain agrees with the ordered table scan on every request that has a client. */
  lemma ValidarSegueOrdem(dto: ClienteDTO)
    ensures Validar(Some(ClienteRequest(Some(dto)))) == Relatorio(PrimeiraFalha(dto, Ordem, 0))
  {
    if !CampoOk(dto, Nome) { return; }
    assert PrimeiraFalha(dto, Ordem, 0) == PrimeiraFalha(dto, Ordem, 1);
    if !CampoOk(dto, Cpf) { return; }
    assert PrimeiraFalha(dto, Ordem, 1) == PrimeiraFalha(dto, Ordem, 2);
    if !CampoOk(dto, Idade) { return; }
    assert PrimeiraFalha(dto, Ordem, 2) == PrimeiraFalha(dto, Ordem, 3);
    if !CampoOk(dto, DataNascimento) { return; }
    assert PrimeiraFalha(dto, Ordem, 3) == PrimeiraFalha(dto, Ordem, 4);
    if !CampoOk(dto, Uf) { return; }
    assert PrimeiraFalha(dto, Ordem, 4) == PrimeiraFalha(dto, Ordem, 5);
    if !CampoOk(dto, RendaMensal) { return; }
    assert PrimeiraFalha(dto, Ordem, 5) == PrimeiraFalha(dto, Ordem, 6);
    if !CampoOk(dto, Email) { return; }
    assert PrimeiraFalha(dto, Ordem, 6) == PrimeiraFalha(dto, Ordem, 7);
    if !CampoOk(dto, TelefoneWhatsapp) { return; }
    assert PrimeiraFalha(dto, Ordem, 7) == PrimeiraFalha(dto, Ordem, 8);
  }

  /** validar returns normally iff the request and client are present and every field passes. */
  lemma ValidarSucesso(req: Option<ClienteRequest>)
    ensures Validar(req) == Pass <==>
              && req.Some? && req.value.cliente.Some?
              && forall k: Campo :: CampoOk(req.value.cliente.value, k)
  {
    if req.Some? && req.value.cliente.Some? {
      var dto := req.value.cliente.value;
      ValidarSegueOrdem(dto);
      PrimeiraFalhaPassa(dto, Ordem, 0);
      forall k: Campo ensures (forall i :: 0 <= i < |Ordem| ==> CampoOk(dto, Ordem[i])) ==> CampoOk(dto, k) {
        var i := match k
          case Nome => 0 case Cpf => 1 case Idade => 2 case DataNascimento => 3
          case Uf => 4 case RendaMensal => 5 case Email => 6 case TelefoneWhatsapp => 7;
        assert Ordem[i] == k;
      }
    }
  }

  /** Only the first failing field, in the fixed order, is reported. */
  lemma PrimeiroCampoInvalido(dto: ClienteDTO, i: nat)
    requires i < |Ordem| && !CampoOk(dto, Ordem[i])
    requires forall j :: 0 <= j < i ==> CampoOk(dto, Ordem[j])
    ensures Validar(Some(ClienteRequest(Some(dto)))) == Fail(BusinessException(Mensagem(Ordem[i])))
  {
    ValidarSegueOrdem(dto);
    PrimeiraFalhaIndice(dto, Ordem, 0, i);
  }

  /** idade, birth date and income are checked only for presence: their values never change the outcome. */
  lemma ValoresNaoSaoVerificados(dto: ClienteDTO, idade: int, data: LocalDate, renda: Money)
    requires dto.idade.Some? && dto.dataNascimento.Some? && dto.rendaMensal.Some?
    ensures var outro := dto.(idade := Some(idade), dataNascimento := Some(data), rendaMensal := Some(renda));
            Validar(Some(ClienteRequest(Some(outro)))) == Validar(Some(ClienteRequest(Some(dto))))
  {
  }

  /** Blank text fails like an absent one: empty and whitespace-only names are refused. */
  lemma TextoEmBrancoFalha(dto: ClienteDTO)
    ensures Validar(Some(ClienteRequest(Some(dto.(nome := Some(""))))))
              == Fail(BusinessException("Nome do cliente é obrigatório"))
    ensures Validar(Some(ClienteRequest(Some(dto.(nome := Some(" \t\n"))))))
              == Fail(BusinessException("Nome do cliente é obrigatório"))
    ensures Validar(Some(ClienteRequest(Some(dto.(nome := None)))))
              == Fail(BusinessException("Nome do cliente é obrigatório"))
  {
  }
}
