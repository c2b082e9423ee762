/** Months, ordered as their `YYYY-MM` texts are, and their last days. */
module Calendar {
  import Ledger

  datatype Month = Month(year: int, month: int) {
    predicate Before(other: Month) {
      year < other.year || (year == other.year && month < other.month)
    }
  }

  predicate IsLeap(year: int) {
    (year % 4 == 0 && year % 100 != 0) || year % 400 == 0
  }

  function DaysIn(m: Month): int {
    if m.month == 2 then (if IsLeap(m.year) then 29 else 28)
    else if m.month in {4, 6, 9, 11} then 30
    else 31
  }

  function LastDay(m: Month): Ledger.Date {
    Ledger.Date(m.year, m.month, DaysIn(m))
  }

  /** The Gregorian month lengths: a leap year every fourth year, but of the
      centuries only every fourth. */
  lemma MonthLengths(year: int)
    ensures forall m :: m in {1, 3, 5, 7, 8, 10, 12} ==> LastDay(Month(year, m)) == Ledger.Date(year, m, 31)
    ensures forall m :: m in {4, 6, 9, 11} ==> LastDay(Month(year, m)) == Ledger.Date(year, m, 30)
    ensures LastDay(Month(year, 2)).day
            == if year % 400 == 0 || (year % 4 == 0 && year % 100 != 0) then 29 else 28
    ensures LastDay(Month(year, 2)).year == year && LastDay(Month(year, 2)).month == 2
  {
  }
}
