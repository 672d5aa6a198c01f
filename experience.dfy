/**
 * The years-of-experience figures: a subtraction from the current year,
 * which is a parameter here rather than a reading of the clock.
 */
module Experience {

  /** Professional development started in 2012. */
  const WebMobileStartYear: int := 2012

  /** Game development started in 2015. */
  const GameDevStartYear: int := 2015

  /** `calculateYearsOfExperience(startYear)` with the current year given. */
  function YearsOfExperience(currentYear: int, startYear: int): (r: int)
    ensures startYear + r == currentYear
    ensures startYear <= currentYear <==> r >= 0
  {
    currentYear - startYear
  }

  /** `getWebMobileYears()` */
  function WebMobileYears(currentYear: int): (r: int)
    ensures WebMobileStartYear + r == currentYear
    ensures r >= 0 <==> currentYear >= WebMobileStartYear
  {
    YearsOfExperience(currentYear, WebMobileStartYear)
  }

  /** `getGameDevYears()` */
  function GameDevYears(currentYear: int): (r: int)
    ensures GameDevStartYear + r == currentYear
    ensures r >= 0 <==> currentYear >= GameDevStartYear
  {
    YearsOfExperience(currentYear, GameDevStartYear)
  }

  /** In every year web and mobile experience leads game development by
      three years. */
  lemma GapIsThree(currentYear: int)
    ensures WebMobileYears(currentYear) - GameDevYears(currentYear) == 3
  {
  }

  /** Each new year adds exactly one year to both totals. */
  lemma NextYear(currentYear: int)
    ensures WebMobileYears(currentYear + 1) == WebMobileYears(currentYear) + 1
    ensures GameDevYears(currentYear + 1) == GameDevYears(currentYear) + 1
  {
  }

  /** From the game-development start year on, both totals are
      non-negative; in 2025 they are thirteen and ten. */
  lemma Totals(currentYear: int)
    ensures currentYear >= GameDevStartYear ==> GameDevYears(currentYear) >= 0 && WebMobileYears(currentYear) >= 3
    ensures currentYear == 2025 ==> WebMobileYears(currentYear) == 13 && GameDevYears(currentYear) == 10
  {
  }
}
