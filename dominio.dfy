/**
 * Domain entities and enumerations of the card-eligibility core.
 */
module Dominio {

  import opened Erros

  /** java.math.BigDecimal amounts: exact decimals, compared by value (scale ignored). */
  type Money = real

  datatype TipoCartao = CartaoSemAnuidade | CartaoDeParceiros | CartaoComCashback

  datatype CartaoStatus = Aprovado | Negado

  /** The fixed order in which every rule lists its offers. */
  function Rank(t: TipoCartao): nat
  {
    match t
    case CartaoSemAnuidade => 0
    case CartaoDeParceiros => 1
    case CartaoComCashback => 2
  }

  /** One card offer. */
  datatype Cartao = Cartao(
    tipoCartao: TipoCartao,
    valorAnuidadeMensal: Money,
    valorLimiteDisponivel: Money,
    status: CartaoStatus)

  /** A card product's configuration: the income it requires, its limit and its monthly fee. */
  datatype Produto = Produto(rendaMinima: Money, limite: Money, anuidade: Money)

  /** The builder call every rule uses: an approved card with the product's fee and limit. */
  function CartaoAprovado(t: TipoCartao, p: Produto): Cartao
  {
    Cartao(t, p.anuidade, p.limite, Aprovado)
  }

  // ---------------------------------------------------------------------------
  // java.time.LocalDate (proleptic ISO calendar)

  datatype Date = Date(year: int, month: int, day: int)

  predicate IsLeapYear(y: int)
  {
    y % 4 == 0 && (y % 100 != 0 || y % 400 == 0)
  }

  function DaysInMonth(y: int, m: int): (n: int)
    requires 1 <= m <= 12
    ensures 28 <= n <= 31
  {
    if m == 2 then (if IsLeapYear(y) then 29 else 28)
    else if m == 4 || m == 6 || m == 9 || m == 11 then 30
    else 31
  }

  predicate ValidDate(d: Date)
  {
    1 <= d.month <= 12 && 1 <= d.day <= DaysInMonth(d.year, d.month)
  }

  /** The dates a LocalDate can hold. */
  type LocalDate = d: Date | ValidDate(d) witness Date(2000, 1, 1)

  /** Chronological order (LocalDate.compareTo <= 0). */
  predicate DateLe(a: Date, b: Date)
  {
    a.year < b.year
    || (a.year == b.year && a.month < b.month)
    || (a.year == b.year && a.month == b.month && a.day <= b.day)
  }

  /** LocalDate.minusYears: same month, day clamped to the length of that month in the target year. */
  function MinusYears(d: LocalDate, n: int): (r: LocalDate)
    ensures r.year == d.year - n && r.month == d.month && r.day <= d.day
    ensures d.day <= DaysInMonth(r.year, r.month) ==> r.day == d.day
    ensures d.day > DaysInMonth(r.year, r.month) ==> r.day == DaysInMonth(r.year, r.month)
  {
    var y := d.year - n;
    var last := DaysInMonth(y, d.month);
    Date(y, d.month, if d.day <= last then d.day else last)
  }

  // ---------------------------------------------------------------------------
  // Cliente

  /**
   * The applicant profile the rules read. `uf` and `dataNascimento` keep Java's null; `idade`
   * and `rendaMensal`, whose null would make every rule throw NullPointerException, are present.
   */
  datatype Cliente = Cliente(
    nome: string,
    cpf: string,
    idade: int,
    dataNascimento: Option<LocalDate>,
    uf: Option<string>,
    rendaMensal: Money,
    email: string,
    telefoneWhatsapp: string)

  /** A client with only age, state and income set, as the unit tests build them. */
  function ClienteExemplo(idade: int, uf: Option<string>, renda: Money): Cliente
  {
    Cliente("", "", idade, None, uf, renda, "", "")
  }
}
