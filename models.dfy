/** The rows the database layer returns (database/models.go). */
module Models {
  import opened GoInt

  /** A calendar day, the part of a `time.Time` that the "2006-01-02" layout reads and writes. */
  datatype Date = Date(year: int, month: int, day: int)

  /** Leap years of the proleptic Gregorian calendar. */
  predicate IsLeap(year: int) {
    year % 4 == 0 && (year % 100 != 0 || year % 400 == 0)
  }

  /** The number of days in `month` of `year`. */
  function DaysIn(month: int, year: int): int
    requires 1 <= month <= 12
  {
    if month == 2 then (if IsLeap(year) then 29 else 28)
    else if month == 4 || month == 6 || month == 9 || month == 11 then 30
    else 31
  }

  predicate ValidDate(d: Date) {
    1 <= d.month <= 12 && 1 <= d.day <= DaysIn(d.month, d.year)
  }

  /** The day of a `time.Time`, which always exists. */
  type CivilDate = d: Date | ValidDate(d) witness Date(1, 1, 1)

  /** The day of Go's zero `time.Time`. */
  const ZeroDate: CivilDate := Date(1, 1, 1)

  /** An instant, counted from Go's zero `time.Time`; the zero value is 0. */
  type Instant = int

  /** `database.Assignment` */
  datatype Assignment = Assignment(
    id: Int32, name: string, order: Int32, createdAt: Instant, updatedAt: Instant, typ: string)

  const ZeroAssignment: Assignment := Assignment(0, "", 0, 0, 0, "")

  /** `database.DisplayableUser` */
  datatype DisplayableUser = DisplayableUser(id: Int32, name: string, email: string, dateOfBirth: CivilDate)

  const ZeroUser: DisplayableUser := DisplayableUser(0, "", "", ZeroDate)
}
