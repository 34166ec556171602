/**
 * Spreadsheet values as the scripts see them: cells returned by
 * `getValues()`, ledger and settings rows, JavaScript's truthiness and
 * `String`/`Number` coercions of a cell, and `Math.round`-based rounding.
 */
module Values {
  import opened Strings

  datatype Result<+T, +E> = Success(value: T) | Failure(error: E)

  /**
   * The faults that end a run with an exception: the Settings sheet does not
   * exist, or the base currency setting is a number where text is needed.
   */
  datatype ConfigError = SettingsSheetMissing | BaseCurrencyNotText

  /** A cell value; an empty cell (the empty string) is `Empty`. */
  datatype Cell = Empty | Num(n: real) | Text(s: string)

  /** One row of the Transactions sheet, in column order. */
  datatype TxRow = TxRow(date: Cell, description: Cell, category: Cell,
                         amountBase: Cell, amountLocal: Cell, currency: Cell)

  /** One row of the Settings sheet: parameter name and value. */
  datatype SettingRow = SettingRow(key: Cell, value: Cell)

  /** The Settings sheet with its header row, or None when the sheet is absent. */
  type SettingsSheet = Option<seq<SettingRow>>

  /** JavaScript truthiness of a cell: '', 0 are false (a sheet never holds NaN). */
  predicate Truthy(c: Cell)
  {
    match c
    case Empty => false
    case Num(n) => n != 0.0
    case Text(s) => s != []
  }

  /** Truthiness of a looked-up setting, where None is `null`. */
  predicate TruthySetting(v: Option<Cell>)
  {
    v.Some? && Truthy(v.value)
  }

  /** `c || ''`. */
  function OrEmpty(c: Cell): (r: Cell)
    ensures Truthy(c) ==> r == c
    ensures !Truthy(c) ==> r == Empty
  {
    if Truthy(c) then c else Empty
  }

  /** `String(c)`. */
  function CellString(c: Cell): string
  {
    match c
    case Empty => ""
    case Num(n) => NumToString(n)
    case Text(s) => s
  }

  /** `Number(c)`; None stands for NaN. An empty cell is 0, not NaN. */
  function CellNumber(c: Cell): (r: Option<real>)
    ensures c == Empty ==> r == Some(0.0)
    ensures c.Num? ==> r == Some(c.n)
  {
    match c
    case Empty => Some(0.0)
    case Num(n) => Some(n)
    case Text(s) => ToNumber(s)
  }

  /** `Math.round(x)`: the nearest integer, a half rounded towards +infinity. */
  function RoundHalfUp(x: real): (k: int)
    ensures k as real - 0.5 <= x < k as real + 0.5
  {
    (x + 0.5).Floor
  }

  /** The bounds above pin `Math.round` down: no other integer satisfies them. */
  lemma RoundHalfUpUnique(x: real, k: int)
    requires k as real - 0.5 <= x < k as real + 0.5
    ensures RoundHalfUp(x) == k
  {
  }

  /** `Math.round(x * 100) / 100`: the nearest cent, a half cent rounded up. */
  function Round2(x: real): (r: real)
    ensures x - 0.005 < r <= x + 0.005
  {
    RoundHalfUp(x * 100.0) as real / 100.0
  }

  /** An amount already in whole cents is left alone. */
  lemma Round2OfCents(k: int)
    ensures Round2(k as real / 100.0) == k as real / 100.0
  {
    RoundHalfUpUnique(k as real / 100.0 * 100.0, k);
  }

  /** Rounding to cents twice is rounding once. */
  lemma Round2Idempotent(x: real)
    ensures Round2(Round2(x)) == Round2(x)
  {
    Round2OfCents(RoundHalfUp(x * 100.0));
  }
}
