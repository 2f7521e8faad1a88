/** Values shared by both pipelines: amounts, lookup-sheet rules and the cells of a sheet row. */
module Common {
  import opened Wrappers

  /** An exact decimal amount, as an integer count of a fixed smallest unit. */
  type Decimal = int

  /**
   * One rule of the lookup sheet: an optional category and an optional display name
   * for the payee (Go's `models.Category`, Python's `Category` named tuple).
   */
  datatype Category = Category(category: Option<string>, name: Option<string>)

  /**
   * A cell of a row written to the transactions sheet. `Float(a)` is the floating-point
   * conversion of the exact amount `a`; `LocalDate(e)` is the instant `e` (seconds since the
   * epoch) written as month/day/4-digit year in the local time zone, `UtcDate(e)` the same in UTC.
   */
  datatype Cell = Text(s: string) | Float(amount: Decimal) | LocalDate(epoch: int) | UtcDate(epoch: int)

  /** Python truthiness of an optional string: present and not empty. */
  predicate Truthy(s: Option<string>)
  {
    s.Some? && s.value != ""
  }
}
