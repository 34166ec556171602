/**
 * Budget arithmetic by category: the totals of the Transactions sheet per
 * category, the status of a category against the shared budget limit, the
 * sorted budget summary and the categories at or over the alert threshold.
 *
 * The Transactions sheet is an array of rows (header first), or null when
 * the sheet does not exist; the Settings sheet is read through `Utils`.
 */
module BudgetTracker {
  import opened Strings
  import opened Values
  import opened Utils
  import opened Ordering

  // ---------------------------------------------------------------------
  // getStatus
  // ---------------------------------------------------------------------

  datatype Status = Ok | Warning | OverBudget

  /** The text the sheet and the e-mails show for a status. */
  function StatusLabel(s: Status): string
  {
    match s
    case Ok => "OK"
    case Warning => "Warning"
    case OverBudget => "Over Budget"
  }

  /** How serious a status is, OK lowest. */
  function Severity(s: Status): nat
  {
    match s
    case Ok => 0
    case Warning => 1
    case OverBudget => 2
  }

  /** `getStatus(spent, budget, threshold)`: classified by the ratio spent / budget. */
  function GetStatus(spent: real, budget: real, threshold: real): (s: Status)
    ensures budget <= 0.0 ==> s == Ok
  {
    if budget <= 0.0 then Ok
    else
      var ratio := spent / budget;
      if ratio >= 1.0 then OverBudget
      else if ratio >= threshold then Warning
      else Ok
  }

  /** For a positive denominator, comparing a quotient is comparing a product. */
  lemma QuotientAtLeast(x: real, b: real, t: real)
    requires b > 0.0
    ensures x / b >= t <==> x >= t * b
  {
    var r := x / b;
    assert x == r * b;
    if r >= t {
      assert r * b - t * b == (r - t) * b;
    } else {
      assert t * b - r * b == (t - r) * b;
    }
  }

  lemma QuotientMonotone(a: real, c: real, b: real)
    requires a <= c && b > 0.0
    ensures a / b <= c / b
  {
    assert c / b - a / b == (c - a) / b;
  }

  /**
   * With a positive budget the status is decided by the amount spent, both
   * boundaries inclusive: Over Budget from the budget itself upwards,
   * Warning from `threshold * budget` up to the budget, OK below both.
   */
  lemma StatusByAmount(spent: real, budget: real, threshold: real)
    requires budget > 0.0
    ensures GetStatus(spent, budget, threshold) == OverBudget <==> spent >= budget
    ensures GetStatus(spent, budget, threshold) == Warning <==> spent < budget && spent >= threshold * budget
    ensures GetStatus(spent, budget, threshold) == Ok <==> spent < budget && spent < threshold * budget
  {
    QuotientAtLeast(spent, budget, 1.0);
    QuotientAtLeast(spent, budget, threshold);
  }

  /** Spending more never makes the status less serious. */
  lemma StatusMonotone(spent: real, more: real, budget: real, threshold: real)
    requires spent <= more
    ensures Severity(GetStatus(spent, budget, threshold)) <= Severity(GetStatus(more, budget, threshold))
  {
    if budget > 0.0 {
      QuotientMonotone(spent, more, budget);
    }
  }

  // ---------------------------------------------------------------------
  // getCategoryTotals
  // ---------------------------------------------------------------------

  /** The data rows of a sheet: all rows but the header. */
  function DataRows(sheet: seq<TxRow>): (r: seq<TxRow>)
    ensures |r| == if sheet == [] then 0 else |sheet| - 1
  {
    if sheet == [] then [] else sheet[1..]
  }

  /** `String(category || '').trim()`. */
  function RowCategory(row: TxRow): string
  {
    Trim(CellString(OrEmpty(row.category)))
  }

  /** `Number(amountUSD)`; None is NaN. An empty cell is 0. */
  function RowAmount(row: TxRow): Option<real>
  {
    CellNumber(row.amountBase)
  }

  /** The row counts towards `category`: it names that (non-empty) category and its amount is a number. */
  predicate CountsFor(row: TxRow, category: string)
  {
    category != "" && RowCategory(row) == category && RowAmount(row).Some?
  }

  /** One step of the accumulating loop: add the row's amount to its category's running total. */
  function AddRow(totals: map<string, real>, row: TxRow): map<string, real>
  {
    AddAmount(totals, RowCategory(row), RowAmount(row))
  }

  /** `totals[category] = (totals[category] || 0) + amount`, unless the category is empty or the amount NaN. */
  function AddAmount(totals: map<string, real>, category: string, amount: Option<real>): map<string, real>
  {
    if category == "" || amount.None? then totals
    else totals[category := (if category in totals then totals[category] else 0.0) + amount.value]
  }

  /** The running totals after the accumulating loop has seen `rows`, before rounding. */
  function RawTotals(rows: seq<TxRow>): map<string, real>
  {
    if rows == [] then map[]
    else AddRow(RawTotals(rows[..|rows| - 1]), rows[|rows| - 1])
  }

  lemma RawTotalsSnoc(rows: seq<TxRow>, row: TxRow)
    ensures RawTotals(rows + [row]) == AddRow(RawTotals(rows), row)
  {
    assert (rows + [row])[..|rows|] == rows;
  }

  /** The sum of the amounts of the rows that count towards `category`. */
  function SumFor(rows: seq<TxRow>, category: string): real
  {
    if rows == [] then 0.0
    else SumFor(rows[..|rows| - 1], category)
         + (if CountsFor(rows[|rows| - 1], category) then RowAmount(rows[|rows| - 1]).value else 0.0)
  }

  /** Some row counts towards `category`. */
  predicate Mentions(rows: seq<TxRow>, category: string)
  {
    exists k :: 0 <= k < |rows| && CountsFor(rows[k], category)
  }

  /** `getCategoryTotals()`: every total rounded to the cent once, after summing. */
  function CategoryTotals(sheet: seq<TxRow>): map<string, real>
  {
    var raw := RawTotals(DataRows(sheet));
    map c | c in raw :: Round2(raw[c])
  }

  /** One step adds the row's amount to its category and touches nothing else. */
  lemma AddRowMeaning(totals: map<string, real>, row: TxRow, category: string)
    ensures category in AddRow(totals, row) <==> category in totals || CountsFor(row, category)
    ensures category in AddRow(totals, row) ==>
              AddRow(totals, row)[category]
              == (if category in totals then totals[category] else 0.0)
                 + (if CountsFor(row, category) then RowAmount(row).value else 0.0)
  {
  }

  lemma MentionsSnoc(rows: seq<TxRow>, row: TxRow, category: string)
    ensures Mentions(rows + [row], category) <==> Mentions(rows, category) || CountsFor(row, category)
  {
    var all := rows + [row];
    if Mentions(rows, category) {
      var k :| 0 <= k < |rows| && CountsFor(rows[k], category);
      assert all[k] == rows[k];
    }
    if CountsFor(row, category) {
      assert all[|rows|] == row;
    }
    if Mentions(all, category) && !CountsFor(row, category) {
      var k :| 0 <= k < |all| && CountsFor(all[k], category);
      assert k < |rows| && all[k] == rows[k];
    }
  }

  /**
   * The accumulating loop builds, for exactly the categories some row
   * counts towards, the sum of those rows' amounts.
   */
  lemma {:induction false} RawTotalsMeaning(rows: seq<TxRow>, category: string)
    ensures category in RawTotals(rows) <==> Mentions(rows, category)
    ensures category in RawTotals(rows) ==> RawTotals(rows)[category] == SumFor(rows, category)
    decreases |rows|
  {
    if rows != [] {
      var init := rows[..|rows| - 1];
      var last := rows[|rows| - 1];
      assert rows == init + [last];
      RawTotalsMeaning(init, category);
      AddRowMeaning(RawTotals(init), last, category);
      MentionsSnoc(init, last, category);
      if !Mentions(init, category) {
        NoMentionNoSum(init, category);
      }
    }
  }

  /** A category no row counts towards sums to 0. */
  lemma {:induction false} NoMentionNoSum(rows: seq<TxRow>, category: string)
    requires !Mentions(rows, category)
    ensures SumFor(rows, category) == 0.0
    decreases |rows|
  {
    if rows != [] {
      var init := rows[..|rows| - 1];
      assert rows == init + [rows[|rows| - 1]];
      MentionsSnoc(init, rows[|rows| - 1], category);
      NoMentionNoSum(init, category);
    }
  }

  /**
   * `getCategoryTotals` has a key for exactly the categories some data row
   * counts towards, and its value is that category's sum rounded to the
   * cent; the header row never counts.
   */
  lemma CategoryTotalsMeaning(sheet: seq<TxRow>, category: string)
    ensures category in CategoryTotals(sheet) <==> Mentions(DataRows(sheet), category)
    ensures category in CategoryTotals(sheet) ==>
              CategoryTotals(sheet)[category] == Round2(SumFor(DataRows(sheet), category))
              && Round2(CategoryTotals(sheet)[category]) == CategoryTotals(sheet)[category]
  {
    RawTotalsMeaning(DataRows(sheet), category);
    if category in CategoryTotals(sheet) {
      Round2Idempotent(SumFor(DataRows(sheet), category));
    }
  }

  /** A sheet with no data rows has no totals. */
  lemma CategoryTotalsOfHeaderOnly(sheet: seq<TxRow>)
    requires |sheet| <= 1
    ensures CategoryTotals(sheet) == map[]
  {
    assert DataRows(sheet) == [];
  }

  /** Two amounts of 10.005 make 20.01: the sum is rounded, not each amount (which would give 20.02). */
  lemma RoundsOnceExample()
    ensures var food := TxRow(Empty, Empty, Text("Food"), Num(10.005), Empty, Empty);
            CategoryTotals([food, food, food]) == map["Food" := 20.01]
            && Round2(10.005) + Round2(10.005) == 20.02
  {
    var food := TxRow(Empty, Empty, Text("Food"), Num(10.005), Empty, Empty);
    assert Trim("Food") == "Food" by {
      assert TrimStart("Food") == "Food";
      assert TrimEnd("Food") == "Food";
    }
    assert DataRows([food, food, food]) == [food, food];
    assert [food, food][..1] == [food];
    assert RawTotals([food]) == map["Food" := 10.005];
    assert RawTotals([food, food]) == map["Food" := 20.01];
    RoundHalfUpUnique(20.01 * 100.0, 2001);
    RoundHalfUpUnique(10.005 * 100.0, 1001);
  }

  /** An empty amount is `Number('') == 0`, not NaN: the row still creates its category. */
  lemma EmptyAmountCountsAsZero(sheet: seq<TxRow>, k: int)
    requires 1 <= k < |sheet| && sheet[k].amountBase == Empty && RowCategory(sheet[k]) != ""
    ensures RowCategory(sheet[k]) in CategoryTotals(sheet)
  {
    var data := DataRows(sheet);
    assert data[k - 1] == sheet[k] && CountsFor(data[k - 1], RowCategory(sheet[k]));
    CategoryTotalsMeaning(sheet, RowCategory(sheet[k]));
  }

  /** `getCategoryTotals()` over the Transactions sheet, or null when there is none. */
  method GetCategoryTotals(ledger: array?<TxRow>) returns (totals: map<string, real>)
    ensures ledger == null ==> totals == map[]
    ensures ledger != null ==> totals == CategoryTotals(ledger[..])
  {
    if ledger == null {
      return map[];
    }
    var raw := AccumulateTotals(ledger[..]);
    totals := RoundTotals(raw);
  }

  /** The first loop of `getCategoryTotals`, over the values read from the sheet: each data row's amount added to its category's total. */
  method AccumulateTotals(sheet: seq<TxRow>) returns (raw: map<string, real>)
    ensures raw == RawTotals(DataRows(sheet))
  {
    ghost var data := DataRows(sheet);
    raw := map[];
    var i := 1;
    while i < |sheet|
      invariant 1 <= i <= |data| + 1
      invariant raw == RawTotals(data[..i - 1])
    {
      var row := sheet[i];
      assert data[..i] == data[..i - 1] + [row];
      RawTotalsSnoc(data[..i - 1], row);
      raw := AddRowTo(raw, row);
      i := i + 1;
    }
    assert data[..i - 1] == data;
  }

  /** The body of that loop: one row's amount added to its category's total, unless the category is empty or the amount NaN. */
  method AddRowTo(totals: map<string, real>, row: TxRow) returns (r: map<string, real>)
    ensures r == AddRow(totals, row)
  {
    r := totals;
    var category := RowCategory(row);
    var amount := RowAmount(row);
    if category != "" && amount.Some? {
      r := r[category := (if category in r then r[category] else 0.0) + amount.value];
    }
  }

  /** The second loop of `getCategoryTotals`: every total rounded to the cent, in place. */
  method RoundTotals(raw: map<string, real>) returns (totals: map<string, real>)
    ensures totals.Keys == raw.Keys
    ensures forall c :: c in raw ==> totals[c] == Round2(raw[c])
  {
    totals := raw;
    var pending := totals.Keys;
    while pending != {}
      invariant pending <= raw.Keys && totals.Keys == raw.Keys
      invariant forall c :: c in pending ==> totals[c] == raw[c]
      invariant forall c :: c in raw && c !in pending ==> totals[c] == Round2(raw[c])
      decreases pending
    {
      var c :| c in pending;
      totals := totals[c := Round2(totals[c])];
      pending := pending - {c};
    }
  }

  // ---------------------------------------------------------------------
  // getBudgetLimit, getAlertThreshold
  // ---------------------------------------------------------------------

  const DefaultBudgetLimit: real := 5000.0
  const DefaultAlertThreshold: real := 0.8

  /** `getBudgetLimit()`. */
  function BudgetLimit(settings: SettingsSheet): Result<real, ConfigError>
  {
    GetSettingAsNumber(settings, "Budget Limit", Some(DefaultBudgetLimit))
  }

  /** `getAlertThreshold()`, a fraction. */
  function AlertThreshold(settings: SettingsSheet): Result<real, ConfigError>
  {
    GetSettingAsNumber(settings, "Alert Threshold", Some(DefaultAlertThreshold))
  }

  /**
   * Both settings fail only without a Settings sheet; a missing or empty
   * value gives 5000 and 0.8.
   */
  lemma BudgetSettingsDefaults(settings: SettingsSheet)
    ensures BudgetLimit(settings).Failure? <==> settings.None?
    ensures AlertThreshold(settings).Failure? <==> settings.None?
    ensures settings.Some? && GetSetting(settings, "Budget Limit").value in {None, Some(Empty), Some(Text(""))} ==>
              BudgetLimit(settings) == Success(5000.0)
    ensures settings.Some? && GetSetting(settings, "Alert Threshold").value in {None, Some(Empty), Some(Text(""))} ==>
              AlertThreshold(settings) == Success(0.8)
  {
    if settings.Some? {
      if GetSetting(settings, "Budget Limit").value in {None, Some(Empty), Some(Text(""))} {
        SettingNumberDefaults(settings, "Budget Limit", Some(DefaultBudgetLimit));
      }
      if GetSetting(settings, "Alert Threshold").value in {None, Some(Empty), Some(Text(""))} {
        SettingNumberDefaults(settings, "Alert Threshold", Some(DefaultAlertThreshold));
      }
    }
  }

  // ---------------------------------------------------------------------
  // getBudgetSummary
  // ---------------------------------------------------------------------

  datatype SummaryEntry = SummaryEntry(category: string, total: real, budget: real, remaining: real, status: Status)

  /** The summary entry of one category. */
  function EntryFor(category: string, total: real, budget: real, threshold: real): SummaryEntry
  {
    SummaryEntry(category, total, budget, Round2(budget - total), GetStatus(total, budget, threshold))
  }

  /** The categories of a totals table in sorted order. */
  function Categories(totals: map<string, real>): (cats: seq<string>)
    ensures |cats| == |totals.Keys| && StrictlySorted(cats)
    ensures forall c :: c in cats <==> c in totals
  {
    SortedKeys(totals.Keys)
  }

  /** The summary of a totals table: one entry per category, sorted by category. */
  function SummaryOf(totals: map<string, real>, budget: real, threshold: real): seq<SummaryEntry>
  {
    var cats := Categories(totals);
    seq(|cats|, k requires 0 <= k < |cats| =>
      assert cats[k] in cats;
      EntryFor(cats[k], totals[cats[k]], budget, threshold))
  }

  /** The summary's categories in order. */
  function CategoriesOf(summary: seq<SummaryEntry>): seq<string>
  {
    seq(|summary|, k requires 0 <= k < |summary| => summary[k].category)
  }

  /** The summary lists the categories in sorted order. */
  lemma SummaryCategories(totals: map<string, real>, budget: real, threshold: real)
    ensures CategoriesOf(SummaryOf(totals, budget, threshold)) == Categories(totals)
  {
  }

  /**
   * The summary has one entry for each category of the totals and no
   * other, sorted strictly by category.
   */
  lemma SummaryListsCategories(totals: map<string, real>, budget: real, threshold: real)
    ensures var s := SummaryOf(totals, budget, threshold);
            |s| == |totals.Keys| && StrictlySorted(CategoriesOf(s))
            && forall c :: c in CategoriesOf(s) <==> c in totals
  {
    SummaryCategories(totals, budget, threshold);
  }

  /**
   * Each entry carries its category's total, the shared budget, the
   * remaining amount rounded to the cent and the status of the total.
   */
  lemma SummaryEntryMeaning(totals: map<string, real>, budget: real, threshold: real, k: int)
    requires 0 <= k < |SummaryOf(totals, budget, threshold)|
    ensures var e := SummaryOf(totals, budget, threshold)[k];
            e.category in totals && e.total == totals[e.category]
            && e.budget == budget && e.remaining == Round2(budget - e.total)
            && e.status == GetStatus(e.total, budget, threshold)
  {
    assert Categories(totals)[k] in Categories(totals);
  }

  /** Any listing with those properties is the summary: the order is forced by the categories. */
  lemma SummaryUnique(totals: map<string, real>, budget: real, threshold: real, s: seq<SummaryEntry>)
    requires StrictlySorted(CategoriesOf(s))
    requires forall c :: c in CategoriesOf(s) <==> c in totals
    requires forall k :: 0 <= k < |s| ==>
               s[k].category in totals && s[k] == EntryFor(s[k].category, totals[s[k].category], budget, threshold)
    ensures s == SummaryOf(totals, budget, threshold)
  {
    var cats := Categories(totals);
    StrictlySortedUnique(CategoriesOf(s), cats);
    assert |s| == |CategoriesOf(s)|;
    forall k | 0 <= k < |s| ensures s[k] == SummaryOf(totals, budget, threshold)[k] {
      assert s[k].category == CategoriesOf(s)[k] == cats[k];
    }
  }

  /** `getBudgetSummary()` for given totals: fails only when a setting cannot be read. */
  function BudgetSummary(settings: SettingsSheet, totals: map<string, real>): Result<seq<SummaryEntry>, ConfigError>
  {
    match BudgetLimit(settings)
    case Failure(e) => Failure(e)
    case Success(budget) =>
      match AlertThreshold(settings)
      case Failure(e) => Failure(e)
      case Success(threshold) => Success(SummaryOf(totals, budget, threshold))
  }

  /** The totals `getCategoryTotals` finds on a Transactions sheet that may be missing. */
  function LedgerTotals(ledger: Option<seq<TxRow>>): map<string, real>
  {
    match ledger
    case None => map[]
    case Some(rows) => CategoryTotals(rows)
  }

  /** With no transactions the summary is empty. */
  lemma EmptySummary(budget: real, threshold: real)
    ensures SummaryOf(map[], budget, threshold) == []
  {
    assert |Categories(map[])| == 0;
  }

  /** Food at 4500 and Transport at 300 of 5000, threshold 0.8: Food first with a warning, Transport OK. */
  lemma SummaryExample()
    ensures SummaryOf(map["Transport" := 300.0, "Food" := 4500.0], 5000.0, 0.8)
            == [SummaryEntry("Food", 4500.0, 5000.0, 500.0, Warning),
                SummaryEntry("Transport", 300.0, 5000.0, 4700.0, Ok)]
  {
    var totals := map["Transport" := 300.0, "Food" := 4500.0];
    var s := [SummaryEntry("Food", 4500.0, 5000.0, 500.0, Warning),
              SummaryEntry("Transport", 300.0, 5000.0, 4700.0, Ok)];
    assert CategoriesOf(s) == ["Food", "Transport"];
    assert Less("Food", "Transport");
    Round2OfCents(50000);
    Round2OfCents(470000);
    SummaryUnique(totals, 5000.0, 0.8, s);
  }

  /** The loop of `getBudgetSummary`: one entry pushed per category, in sorted order. */
  method BuildSummary(totals: map<string, real>, budget: real, threshold: real) returns (summary: seq<SummaryEntry>)
    ensures summary == SummaryOf(totals, budget, threshold)
  {
    var categories := Categories(totals);
    ghost var expected := SummaryOf(totals, budget, threshold);
    summary := [];
    for i := 0 to |categories|
      invariant summary == expected[..i]
    {
      var category := categories[i];
      assert category in categories;
      var entry := MakeEntry(category, totals[category], budget, threshold);
      SummaryAt(totals, budget, threshold, i);
      PrefixSnoc(expected, i);
      summary := summary + [entry];
    }
    assert expected[..|categories|] == expected;
  }

  /** The entry the loop pushes for one category: its total, the budget, what remains rounded to the cent, the status. */
  method MakeEntry(category: string, spent: real, budget: real, threshold: real) returns (e: SummaryEntry)
    ensures e == EntryFor(category, spent, budget, threshold)
  {
    var remaining := Round2(budget - spent);
    e := SummaryEntry(category, spent, budget, remaining, GetStatus(spent, budget, threshold));
  }

  lemma SummaryAt(totals: map<string, real>, budget: real, threshold: real, i: int)
    requires 0 <= i < |Categories(totals)|
    ensures |SummaryOf(totals, budget, threshold)| == |Categories(totals)|
    ensures Categories(totals)[i] in totals
    ensures SummaryOf(totals, budget, threshold)[i]
            == EntryFor(Categories(totals)[i], totals[Categories(totals)[i]], budget, threshold)
  {
    assert Categories(totals)[i] in Categories(totals);
  }

  lemma PrefixSnoc<T>(s: seq<T>, i: int)
    requires 0 <= i < |s|
    ensures s[..i + 1] == s[..i] + [s[i]]
  {
  }

  /** `getBudgetSummary()`: totals, then the budget limit, then the threshold, then one entry per sorted category. */
  method GetBudgetSummary(settings: SettingsSheet, ledger: array?<TxRow>) returns (r: Result<seq<SummaryEntry>, ConfigError>)
    ensures r == BudgetSummary(settings, LedgerTotals(if ledger == null then None else Some(ledger[..])))
  {
    var totals := GetCategoryTotals(ledger);
    var budgetSetting := BudgetLimit(settings);
    if budgetSetting.Failure? {
      return Failure(budgetSetting.error);
    }
    // With the Settings sheet present the threshold is readable too.
    var budget, threshold := budgetSetting.value, AlertThreshold(settings).value;
    var summary := BuildSummary(totals, budget, threshold);
    return Success(summary);
  }

  // ---------------------------------------------------------------------
  // getOverBudgetCategories
  // ---------------------------------------------------------------------

  /** A summary entry with the percentage of its budget spent, in tenths of a percent. */
  datatype Alert = Alert(entry: SummaryEntry, percentTenths: int)

  /** The entry is at or over the threshold (and has a positive budget). */
  predicate Selected(e: SummaryEntry, threshold: real)
  {
    e.budget > 0.0 && e.total / e.budget >= threshold
  }

  /** `Math.round(ratio * 1000) / 10`, kept as the whole number of tenths. */
  function AlertOf(e: SummaryEntry): (a: Alert)
    requires e.budget > 0.0
    ensures a.entry == e
    ensures a.percentTenths as real / 10.0 - 0.05 <= e.total / e.budget * 100.0 < a.percentTenths as real / 10.0 + 0.05
  {
    Alert(e, RoundHalfUp(e.total / e.budget * 1000.0))
  }

  /** The alerts of a summary, in summary order. */
  function SelectAlerts(summary: seq<SummaryEntry>, threshold: real): seq<Alert>
  {
    if summary == [] then []
    else
      var last := summary[|summary| - 1];
      SelectAlerts(summary[..|summary| - 1], threshold) + (if Selected(last, threshold) then [AlertOf(last)] else [])
  }

  /** Selecting from two pieces is selecting from each in turn: the order of the summary is kept. */
  lemma {:induction false} SelectAlertsAppend(a: seq<SummaryEntry>, b: seq<SummaryEntry>, threshold: real)
    ensures SelectAlerts(a + b, threshold) == SelectAlerts(a, threshold) + SelectAlerts(b, threshold)
    decreases |b|
  {
    if b != [] {
      var b' := b[..|b| - 1];
      var x := b[|b| - 1];
      var tail := if Selected(x, threshold) then [AlertOf(x)] else [];
      assert (a + b)[..|a + b| - 1] == a + b';
      assert (a + b)[|a + b| - 1] == x;
      assert SelectAlerts(a + b, threshold) == SelectAlerts(a + b', threshold) + tail;
      assert SelectAlerts(b, threshold) == SelectAlerts(b', threshold) + tail;
      SelectAlertsAppend(a, b', threshold);
    } else {
      assert a + b == a;
    }
  }

  /** An alert is exactly a selected entry of the summary with its percentage. */
  lemma {:induction false} SelectAlertsMembership(summary: seq<SummaryEntry>, threshold: real, a: Alert)
    ensures a in SelectAlerts(summary, threshold) <==>
            a.entry in summary && Selected(a.entry, threshold) && a == AlertOf(a.entry)
    decreases |summary|
  {
    if summary != [] {
      var init := summary[..|summary| - 1];
      SelectAlertsMembership(init, threshold, a);
      assert summary == init + [summary[|summary| - 1]];
      assert a.entry in summary <==> a.entry in init || a.entry == summary[|summary| - 1];
    }
  }

  /** There are never more alerts than summary entries. */
  lemma {:induction false} SelectAlertsBound(summary: seq<SummaryEntry>, threshold: real)
    ensures |SelectAlerts(summary, threshold)| <= |summary|
    decreases |summary|
  {
    if summary != [] {
      SelectAlertsBound(summary[..|summary| - 1], threshold);
    }
  }

  /**
   * With a threshold of at most 1, a summary entry is alerted exactly when
   * its status is Warning or Over Budget.
   */
  lemma SelectedIffFlagged(category: string, total: real, budget: real, threshold: real)
    requires threshold <= 1.0
    ensures Selected(EntryFor(category, total, budget, threshold), threshold) <==>
            GetStatus(total, budget, threshold) != Ok
  {
  }

  /** With a threshold above 1 an Over Budget category can go without an alert. */
  lemma ThresholdAboveOneExample()
    ensures var e := EntryFor("Food", 110.0, 100.0, 1.5);
            e.status == OverBudget && !Selected(e, 1.5)
  {
    assert 110.0 / 100.0 == 1.1;
  }

  /** `getOverBudgetCategories()` for given totals. */
  function OverBudgetCategories(settings: SettingsSheet, totals: map<string, real>): Result<seq<Alert>, ConfigError>
  {
    match BudgetSummary(settings, totals)
    case Failure(e) => Failure(e)
    case Success(summary) =>
      match AlertThreshold(settings)
      case Failure(e) => Failure(e)
      case Success(threshold) => Success(SelectAlerts(summary, threshold))
  }

  /**
   * With a threshold of at most 1, the alerts are the summary's Warning
   * and Over Budget entries, in summary order.
   */
  lemma AlertsAreFlaggedEntries(settings: SettingsSheet, totals: map<string, real>, e: SummaryEntry)
    requires OverBudgetCategories(settings, totals).Success?
    requires AlertThreshold(settings).value <= 1.0
    ensures var summary := BudgetSummary(settings, totals).value;
            var alerts := OverBudgetCategories(settings, totals).value;
            e in summary ==> (e.status != Ok <==> e.budget > 0.0 && AlertOf(e) in alerts)
  {
    var summary := BudgetSummary(settings, totals).value;
    var threshold := AlertThreshold(settings).value;
    if e in summary {
      var k :| 0 <= k < |summary| && summary[k] == e;
      SummaryEntryMeaning(totals, BudgetLimit(settings).value, threshold, k);
      SelectedIffFlagged(e.category, e.total, e.budget, threshold);
      if e.budget > 0.0 {
        SelectAlertsMembership(summary, threshold, AlertOf(e));
      }
    }
  }

  /** The loop of `getOverBudgetCategories`: the entries at or over the threshold, with their percentage. */
  method KeepOverThreshold(summary: seq<SummaryEntry>, threshold: real) returns (alerts: seq<Alert>)
    ensures alerts == SelectAlerts(summary, threshold)
  {
    alerts := [];
    for i := 0 to |summary|
      invariant alerts == SelectAlerts(summary[..i], threshold)
    {
      assert summary[..i + 1] == summary[..i] + [summary[i]];
      assert summary[..i + 1][..i] == summary[..i];
      var item := summary[i];
      if item.budget > 0.0 {
        var percent := item.total / item.budget;
        if percent >= threshold {
          alerts := alerts + [Alert(item, RoundHalfUp(percent * 1000.0))];
        }
      }
    }
    assert summary[..|summary|] == summary;
  }

  /** `getOverBudgetCategories()`: the summary, the threshold read again, then a pass keeping the entries at or over it. */
  method GetOverBudgetCategories(settings: SettingsSheet, ledger: array?<TxRow>) returns (r: Result<seq<Alert>, ConfigError>)
    ensures r == OverBudgetCategories(settings, LedgerTotals(if ledger == null then None else Some(ledger[..])))
  {
    var found := GetBudgetSummary(settings, ledger);
    if found.Failure? {
      return Failure(found.error);
    }
    var summary := found.value;
    var threshold := AlertThreshold(settings).value;
    var alerts := KeepOverThreshold(summary, threshold);
    return Success(alerts);
  }
}
