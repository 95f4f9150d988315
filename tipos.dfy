/** Value types of the life-stage model: the two closed enumerations, the
    calendar date and the immutable event record. */
module Tipos {

  /** The three life stages a person can be in. */
  datatype FaseDeVida = Infancia | Adolescencia | Adulto

  /** The closed taxonomy of life events. */
  datatype TipoEvento =
    | Nascimento | Escola | Conquista | Trabalho | Projeto | Religiao
    | Relacao | Saude | MudancaCidade | Amadureceu | Presente | Acidente

  /** A calendar date as a (year, month, day) triple. Unlike .NET's
      `DateTime`, it does not exclude impossible dates and has no time of
      day. */
  datatype DateTime = DateTime(year: int, month: int, day: int)

  /** Chronological order of dates: by year, then month, then day. */
  predicate NotAfter(a: DateTime, b: DateTime)
  {
    a.year < b.year
    || (a.year == b.year && a.month < b.month)
    || (a.year == b.year && a.month == b.month && a.day <= b.day)
  }

  /** One dated, categorised and described occurrence. */
  datatype EventoDeVida = EventoDeVida(data: DateTime, tipo: TipoEvento, descricao: string)

  /** The enum member's name, as string interpolation of a stage prints it. */
  function NomeDaFase(f: FaseDeVida): string
  {
    match f
    case Infancia => "Infancia"
    case Adolescencia => "Adolescencia"
    case Adulto => "Adulto"
  }
}
