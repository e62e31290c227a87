/**
 * Age helpers: calcularIdade, isIdadeCompativel, isIdadeMaiorOuIgualA. The clock read
 * (LocalDate.now()) is the explicit parameter `hoje`.
 */
module ValidadorUtil {

  import opened Erros
  import opened Dominio

  const MensagemDataNula: string := "Data de nascimento não pode ser nula"

  /** Java's long division, which truncates toward zero. */
  function JavaDiv(a: int, b: int): (q: int)
    requires b > 0
    ensures a >= 0 ==> 0 <= a - q * b < b
    ensures a < 0 ==> -b < a - q * b <= 0
  {
    if a >= 0 then a / b else -((-a) / b)
  }

  function ProlepticMonth(d: Date): int
  {
    d.year * 12 + d.month - 1
  }

  /** Period.between(inicio, fim).getYears(), following LocalDate.until. */
  function PeriodYears(inicio: LocalDate, fim: LocalDate): int
  {
    var totalMonths := ProlepticMonth(fim) - ProlepticMonth(inicio);
    var days := fim.day - inicio.day;
    var adjusted :=
      if totalMonths > 0 && days < 0 then totalMonths - 1
      else if totalMonths < 0 && days > 0 then totalMonths + 1
      else totalMonths;
    JavaDiv(adjusted, 12)
  }

  /** Complete years from `nascimento` to `hoje` in the ISO calendar. */
  function CompleteYears(nascimento: Date, hoje: Date): int
  {
    var beforeBirthday :=
      hoje.month < nascimento.month || (hoje.month == nascimento.month && hoje.day < nascimento.day);
    hoje.year - nascimento.year - (if beforeBirthday then 1 else 0)
  }

  /** calcularIdade: fails on a null date, otherwise the years of the period up to `hoje`. */
  function CalcularIdade(dataNascimento: Option<LocalDate>, hoje: LocalDate): (r: Result<int>)
    ensures dataNascimento.None? <==> r == Err(IllegalArgumentException(MensagemDataNula))
    ensures dataNascimento.Some? && DateLe(dataNascimento.value, hoje) ==>
              r == Ok(CompleteYears(dataNascimento.value, hoje)) && r.value >= 0
    ensures dataNascimento.Some? && !DateLe(dataNascimento.value, hoje) ==>
              r == Ok(-CompleteYears(hoje, dataNascimento.value)) && r.value <= 0
  {
    match dataNascimento
    case None => Err(IllegalArgumentException(MensagemDataNula))
    case Some(d) =>
      if DateLe(d, hoje) then
        PeriodYearsIsCompleteYears(d, hoje);
        Ok(PeriodYears(d, hoje))
      else
        PeriodYearsAntisymmetric(d, hoje);
        PeriodYearsIsCompleteYears(hoje, d);
        Ok(PeriodYears(d, hoje))
  }

  /** isIdadeCompativel: the stated age equals the computed one (throws as calcularIdade does). */
  function IsIdadeCompativel(idade: int, dataNascimento: Option<LocalDate>, hoje: LocalDate): (r: Result<bool>)
    ensures r.Err? <==> dataNascimento.None?
    ensures r.Ok? ==> (r.value <==> idade == CalcularIdade(dataNascimento, hoje).value)
  {
    var idadeCalculada :- CalcularIdade(dataNascimento, hoje);
    Ok(idade == idadeCalculada)
  }

  /** isIdadeMaiorOuIgualA. */
  predicate IsIdadeMaiorOuIgualA(idade: int, idadeMinima: int)
  {
    idade >= idadeMinima
  }

  /** For a birth date not after today, the Period years are the complete years elapsed. */
  lemma PeriodYearsIsCompleteYears(nascimento: LocalDate, hoje: LocalDate)
    requires DateLe(nascimento, hoje)
    ensures PeriodYears(nascimento, hoje) == CompleteYears(nascimento, hoje) >= 0
  {
    var dy := hoje.year - nascimento.year;
    var dm := hoje.month - nascimento.month;
    var totalMonths := ProlepticMonth(hoje) - ProlepticMonth(nascimento);
    assert totalMonths == 12 * dy + dm;
    var days := hoje.day - nascimento.day;
    if dm > 0 || (dm == 0 && days >= 0) {
      if days < 0 {
        assert totalMonths - 1 == 12 * dy + (dm - 1) && 0 <= dm - 1 < 12;
      } else {
        assert 0 <= dm < 12;
      }
    } else if dm < 0 {
      assert dy >= 1;
      if days < 0 {
        assert totalMonths - 1 == 12 * (dy - 1) + (12 + dm - 1) && 0 <= 12 + dm - 1 < 12;
      } else {
        assert totalMonths == 12 * (dy - 1) + (12 + dm) && 0 <= 12 + dm < 12;
      }
    } else {
      assert dy >= 1 && days < 0;
      assert totalMonths - 1 == 12 * (dy - 1) + 11;
    }
  }

  /** Period.between is antisymmetric in its years component. */
  lemma PeriodYearsAntisymmetric(a: LocalDate, b: LocalDate)
    ensures PeriodYears(a, b) == -PeriodYears(b, a)
  {
  }

  /** A birth date exactly N years before today gives age N (ValidadorUtilTest). */
  lemma CalcularIdadeMinusYears(hoje: LocalDate, n: nat)
    ensures CalcularIdade(Some(MinusYears(hoje, n)), hoje) == Ok(n)
  {
    var d := MinusYears(hoje, n);
    assert DateLe(d, hoje);
  }

  /** isIdadeCompativel against a birth date 20 years back: 20 agrees, 19 and 21 do not. */
  lemma IsIdadeCompativelExamples(hoje: LocalDate)
    ensures IsIdadeCompativel(20, Some(MinusYears(hoje, 20)), hoje) == Ok(true)
    ensures IsIdadeCompativel(19, Some(MinusYears(hoje, 20)), hoje) == Ok(false)
    ensures IsIdadeCompativel(21, Some(MinusYears(hoje, 20)), hoje) == Ok(false)
    ensures IsIdadeCompativel(20, None, hoje).Err?
  {
    CalcularIdadeMinusYears(hoje, 20);
  }

  lemma IsIdadeMaiorOuIgualAExamples()
    ensures IsIdadeMaiorOuIgualA(18, 18) && IsIdadeMaiorOuIgualA(19, 18) && !IsIdadeMaiorOuIgualA(17, 18)
  {
  }
}
