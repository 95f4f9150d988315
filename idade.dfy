/** The age shown next to each timeline entry of the summary. */
module Idade {
  import opened Tipos

  /** `CalculateAge` as written: the birth date argument is overwritten with
      2005-02-21 and only the years are subtracted (the "anos" text suffix is
      formatting and is not modelled). */
  function CalculateAge(birthDate: DateTime, currentDate: DateTime): (r: int)
    ensures r == currentDate.year - 2005
  {
    var fixedBirth := DateTime(2005, 2, 21);
    currentDate.year - fixedBirth.year
  }

  /** Completed years of life on `data` for someone born on `nascimento`:
      the last anniversary falls on or before `data` and the next one after
      it. */
  function IdadeEmAnos(nascimento: DateTime, data: DateTime): (r: int)
    ensures NotAfter(DateTime(nascimento.year + r, nascimento.month, nascimento.day), data)
    ensures !NotAfter(DateTime(nascimento.year + r + 1, nascimento.month, nascimento.day), data)
    ensures NotAfter(nascimento, data) ==> r >= 0
  {
    var aniversarioPassou :=
      nascimento.month < data.month || (nascimento.month == data.month && nascimento.day <= data.day);
    if aniversarioPassou then data.year - nascimento.year
    else data.year - nascimento.year - 1
  }

  /** The written `CalculateAge` ignores the birth date it is given and the
      month and day of both dates, so it disagrees with the completed years:
      even for the hardcoded birth date itself it is one year ahead before
      the anniversary, and for another birth date it is off by the gap. */
  lemma CalculateAgeDisagrees()
    ensures CalculateAge(DateTime(2005, 2, 21), DateTime(2007, 1, 1)) == 2
    ensures IdadeEmAnos(DateTime(2005, 2, 21), DateTime(2007, 1, 1)) == 1
    ensures CalculateAge(DateTime(2000, 1, 1), DateTime(2010, 6, 1)) == 5
    ensures IdadeEmAnos(DateTime(2000, 1, 1), DateTime(2010, 6, 1)) == 10
    ensures forall b1, b2, d :: CalculateAge(b1, d) == CalculateAge(b2, d)
  {
  }
}
