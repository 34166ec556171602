/**
 * E-mail notifications: the alert for a category at or over its threshold,
 * the weekly summary, and the passes that send them.
 *
 * The mail service is a `MailChannel` that records every send attempt and
 * is told from outside which attempts go through; the spreadsheet's URL is
 * a parameter.
 */
module AlertService {
  import opened Strings
  import opened Values
  import opened Utils
  import opened BudgetTracker

  // ---------------------------------------------------------------------
  // sendAlert
  // ---------------------------------------------------------------------

  /** One call of the mail service. */
  datatype Mail = Mail(to: string, subject: string, body: string)

  /** The mail service: the attempts made so far, and the attempts (numbered from 0) at which it throws. */
  class MailChannel {
    var attempts: seq<Mail>
    const failures: set<nat>

    constructor(failures: set<nat>)
      ensures attempts == [] && this.failures == failures
    {
      attempts := [];
      this.failures := failures;
    }

    /**
     * `sendAlert(to, subject, body)`: no attempt without a recipient;
     * otherwise one attempt, and true exactly when it did not throw.
     */
    method SendAlert(to: Option<Cell>, subject: string, body: string) returns (ok: bool)
      modifies this
      ensures !TruthySetting(to) ==> !ok && attempts == old(attempts)
      ensures TruthySetting(to) ==>
                attempts == old(attempts) + [Mail(CellString(to.value), subject, body)]
                && ok == (|old(attempts)| !in failures)
    {
      if !TruthySetting(to) {
        return false;
      }
      ok := |attempts| !in failures;
      attempts := attempts + [Mail(CellString(to.value), subject, body)];
    }
  }

  /** How many of the `n` attempts numbered from `start` go through. */
  function Delivered(failures: set<nat>, start: nat, n: nat): nat
  {
    if n == 0 then 0
    else Delivered(failures, start, n - 1) + (if start + n - 1 in failures then 0 else 1)
  }

  /** Never more deliveries than attempts, and all of them when none of the attempts fails. */
  lemma {:induction false} DeliveredBound(failures: set<nat>, start: nat, n: nat)
    ensures Delivered(failures, start, n) <= n
    ensures (forall k :: start <= k < start + n ==> k !in failures) ==> Delivered(failures, start, n) == n
    decreases n
  {
    if n > 0 {
      DeliveredBound(failures, start, n - 1);
    }
  }

  // ---------------------------------------------------------------------
  // buildAlertBody
  // ---------------------------------------------------------------------

  const Signature: string := "\U{2014} Budget Tracker Automation"

  /** `String(percent)` for a percentage kept in tenths: "85.5", "120", "-0.5". */
  function PercentText(tenths: int): string
  {
    if tenths < 0 then "-" + TenthsText(-tenths) else TenthsText(tenths)
  }

  /** `formatCurrency(x)` of a number, with the default symbol. */
  function Money(x: real): string
  {
    FormatNumber(x, "")
  }

  /** The text of `buildAlertBody(alert)`, piece by piece. */
  function AlertBodyPieces(a: Alert, url: string): seq<string>
  {
    [ "Hi,\n\nYour spending in ",
      "\"" + a.entry.category + "\"",
      " has reached ",
      PercentText(a.percentTenths) + "%",
      " of the budget limit.\n\n  Spent:     ",
      Money(a.entry.total),
      "\n  Budget:    ",
      Money(a.entry.budget),
      "\n  Remaining: ",
      Money(a.entry.remaining),
      "\n\nReview your budget: ",
      url,
      "\n\n",
      Signature ]
  }

  /** `buildAlertBody(alert)`. */
  function AlertBody(a: Alert, url: string): string
  {
    Join(AlertBodyPieces(a, url))
  }

  /**
   * The alert greets, names the category in quotes and its percentage,
   * links the spreadsheet and ends with the signature.
   */
  lemma AlertBodyMentions(a: Alert, url: string)
    ensures var body := AlertBody(a, url);
            StartsWith(body, "Hi,\n\nYour spending in ")
            && Contains(body, "\"" + a.entry.category + "\"")
            && Contains(body, PercentText(a.percentTenths) + "%")
            && Contains(body, url)
            && EndsWith(body, Signature)
  {
    var pieces := AlertBodyPieces(a, url);
    JoinEnds(pieces);
    JoinContains(pieces, 1);
    JoinContains(pieces, 3);
    JoinContains(pieces, 11);
  }

  /** The alert shows the amount spent, the budget and what remains, each formatted as currency. */
  lemma AlertBodyAmounts(a: Alert, url: string)
    ensures var body := AlertBody(a, url);
            Contains(body, Money(a.entry.total))
            && Contains(body, Money(a.entry.budget))
            && Contains(body, Money(a.entry.remaining))
  {
    var pieces := AlertBodyPieces(a, url);
    JoinContains(pieces, 5);
    JoinContains(pieces, 7);
    JoinContains(pieces, 9);
  }

  /** The subject line of the alert for one category. */
  function AlertSubject(a: Alert): string
  {
    "Budget Alert: Category \"" + a.entry.category + "\" at " + PercentText(a.percentTenths) + "%"
  }

  /** Reads a percentage printed by `PercentText` and a '%': a '-' in front negates the tenths. */
  function ReadPercent(s: string): Option<int>
  {
    if |s| >= 1 && s[0] == '-' then
      match ReadTenths(s[1..])
      case Some(k) => Some(-(k as int))
      case None => None
    else
      match ReadTenths(s)
      case Some(k) => Some(k)
      case None => None
  }

  lemma NegativePercentReadsBack(tenths: int)
    requires tenths < 0
    ensures ReadPercent(PercentText(tenths) + "%") == Some(tenths)
  {
    var s := PercentText(tenths) + "%";
    assert s == "-" + (TenthsText(-tenths) + "%");
    assert |s| >= 1 && s[0] == '-';
    assert s[1..] == TenthsText(-tenths) + "%";
    TenthsTextReadsBack(-tenths);
    assert ReadTenths(s[1..]) == Some(-tenths);
  }

  lemma NonNegativePercentReadsBack(tenths: int)
    requires tenths >= 0
    ensures ReadPercent(PercentText(tenths) + "%") == Some(tenths)
  {
    var s := PercentText(tenths) + "%";
    assert s == TenthsText(tenths) + "%";
    assert s[0] == IntStr(tenths / 10)[0];
    TenthsTextReadsBack(tenths);
    assert ReadTenths(s) == Some(tenths);
  }

  /** Every percentage, negative ones included, reads back from its text. */
  lemma PercentTextReadsBack(tenths: int)
    ensures ReadPercent(PercentText(tenths) + "%") == Some(tenths)
  {
    if tenths < 0 {
      NegativePercentReadsBack(tenths);
    } else {
      NonNegativePercentReadsBack(tenths);
    }
  }

  /** The subject ends with the percentage, which reads back to the alert's tenths, whatever their sign. */
  lemma AlertSubjectPercent(a: Alert)
    ensures EndsWith(AlertSubject(a), PercentText(a.percentTenths) + "%")
    ensures ReadPercent(PercentText(a.percentTenths) + "%") == Some(a.percentTenths)
  {
    var p := PercentText(a.percentTenths) + "%";
    var s := AlertSubject(a);
    assert s == ("Budget Alert: Category \"" + a.entry.category + "\" at ") + p;
    assert s[|s| - |p|..] == p;
    PercentTextReadsBack(a.percentTenths);
  }

  // ---------------------------------------------------------------------
  // buildWeeklySummaryBody
  // ---------------------------------------------------------------------

  const SummaryHeader: string := "Weekly Budget Summary\n====================\n\n"
  const NoTransactionsLine: string := "No transactions recorded this period.\n"

  /** The closing part of the weekly summary: the link and the signature. */
  function SummaryFooter(url: string): string
  {
    "\nView spreadsheet: " + url + "\n\n" + Signature
  }

  /** The line of one summary entry. */
  function SummaryLine(e: SummaryEntry): string
  {
    e.category + ": " + Money(e.total) + " / " + Money(e.budget) + " (" + StatusLabel(e.status) + ")\n"
  }

  /** The lines of the entries, in order. */
  function SummaryLines(summary: seq<SummaryEntry>): seq<string>
  {
    seq(|summary|, k requires 0 <= k < |summary| => SummaryLine(summary[k]))
  }

  /** `buildWeeklySummaryBody(summary)`. */
  function WeeklySummaryBody(summary: seq<SummaryEntry>, url: string): string
  {
    SummaryHeader + (if summary == [] then NoTransactionsLine else Join(SummaryLines(summary))) + SummaryFooter(url)
  }

  /** The body always opens with the header and closes with the link and the signature. */
  lemma WeeklySummaryFrame(summary: seq<SummaryEntry>, url: string)
    ensures StartsWith(WeeklySummaryBody(summary, url), SummaryHeader)
    ensures EndsWith(WeeklySummaryBody(summary, url), SummaryFooter(url))
    ensures summary == [] ==> Contains(WeeklySummaryBody(summary, url), NoTransactionsLine)
  {
    var middle := if summary == [] then NoTransactionsLine else Join(SummaryLines(summary));
    var body := WeeklySummaryBody(summary, url);
    assert body == SummaryHeader + middle + SummaryFooter(url);
    assert body[..|SummaryHeader|] == SummaryHeader;
    assert body[|body| - |SummaryFooter(url)|..] == SummaryFooter(url);
    ContainsMiddle(SummaryHeader, middle, SummaryFooter(url));
  }

  /** Entry `k`'s line stands in the body right after the lines of the entries before it. */
  lemma WeeklySummaryLineAt(summary: seq<SummaryEntry>, url: string, k: int)
    requires 0 <= k < |summary|
    ensures ContainsAt(WeeklySummaryBody(summary, url), SummaryLine(summary[k]),
                       |SummaryHeader| + |Join(SummaryLines(summary)[..k])|)
  {
    var lines := SummaryLines(summary);
    JoinContains(lines, k);
    ContainsAtShift(SummaryHeader, Join(lines), SummaryFooter(url), lines[k], |Join(lines[..k])|);
  }

  /** How many times `c` occurs in `s`. */
  function Occurrences(c: char, s: string): nat
  {
    if s == [] then 0 else (if s[0] == c then 1 else 0) + Occurrences(c, s[1..])
  }

  lemma {:induction false} OccurrencesAppend(c: char, a: string, b: string)
    ensures Occurrences(c, a + b) == Occurrences(c, a) + Occurrences(c, b)
    decreases |a|
  {
    if a == [] {
      assert a + b == b;
    } else {
      assert (a + b)[1..] == a[1..] + b;
      OccurrencesAppend(c, a[1..], b);
    }
  }

  lemma {:induction false} NoOccurrences(c: char, s: string)
    requires c !in s
    ensures Occurrences(c, s) == 0
    decreases |s|
  {
    if s != [] {
      NoOccurrences(c, s[1..]);
    }
  }

  /** Grouped digits hold no line break. */
  lemma {:induction false} GroupHasNoNewline(d: string)
    requires AllDigits(d)
    ensures '\n' !in Group(d)
    decreases |d|
  {
    if |d| > 3 {
      var front := d[..|d| - 3];
      assert AllDigits(front) by {
        forall i | 0 <= i < |front| ensures IsDigit(front[i]) {
          assert front[i] == d[i];
        }
      }
      GroupHasNoNewline(front);
      var back := d[|d| - 3..];
      forall i | 0 <= i < |back| ensures back[i] != '\n' {
        assert back[i] == d[|d| - 3 + i] && IsDigit(d[|d| - 3 + i]);
      }
    }
  }

  /** A formatted amount is one piece of a line: it holds no line break. */
  lemma MoneyHasNoNewline(x: real)
    ensures '\n' !in Money(x)
  {
    var c := Cents(x);
    var g := Group(IntStr(c / 100));
    GroupHasNoNewline(IntStr(c / 100));
    var t := TwoDigits(c % 100);
    assert IsDigit(t[0]) && IsDigit(t[1]);
    var u := "$" + g + "." + t;
    assert u == CurrencyDigits(c, "$");
    forall i | 0 <= i < |u| ensures u[i] != '\n' {
      if i == 0 {
      } else if i <= |g| {
        assert u[i] == g[i - 1];
      } else if i == |g| + 1 {
      } else {
        assert u[i] == t[i - |g| - 2];
      }
    }
    assert Money(x) == u || Money(x) == "-" + u;
  }

  /** An entry whose category has no line break makes exactly one line. */
  lemma SummaryLineIsOneLine(e: SummaryEntry)
    requires '\n' !in e.category
    ensures Occurrences('\n', SummaryLine(e)) == 1
  {
    var a, b := Money(e.total), Money(e.budget);
    var shown := StatusLabel(e.status);
    MoneyHasNoNewline(e.total);
    MoneyHasNoNewline(e.budget);
    var front := e.category + ": " + a + " / " + b + " (" + shown;
    assert '\n' !in shown;
    assert '\n' !in front by {
      assert front == e.category + ": " + a + " / " + b + " (" + shown;
      forall i | 0 <= i < |front| ensures front[i] != '\n' {
        var p := e.category + ": " + a + " / " + b + " (";
        if i < |p| {
          var q := e.category + ": " + a + " / " + b;
          if i < |q| {
            var r := e.category + ": " + a;
            if i < |r| {
              if i < |e.category| {
                assert front[i] == e.category[i];
              } else if i >= |e.category| + 2 {
                assert front[i] == a[i - |e.category| - 2];
              }
            } else if i >= |r| + 3 {
              assert front[i] == b[i - |r| - 3];
            }
          }
        } else {
          assert front[i] == shown[i - |p|];
        }
      }
    }
    NoOccurrences('\n', front);
    OccurrencesAppend('\n', front, ")\n");
    assert SummaryLine(e) == front + ")\n";
  }

  /** One line per entry: with no line break inside a category name, the lines hold one break each. */
  lemma {:induction false} SummaryLinesCount(summary: seq<SummaryEntry>)
    requires forall k :: 0 <= k < |summary| ==> '\n' !in summary[k].category
    ensures Occurrences('\n', Join(SummaryLines(summary))) == |summary|
    decreases |summary|
  {
    if summary != [] {
      var lines := SummaryLines(summary);
      assert lines[1..] == SummaryLines(summary[1..]);
      SummaryLineIsOneLine(summary[0]);
      OccurrencesAppend('\n', lines[0], Join(lines[1..]));
      SummaryLinesCount(summary[1..]);
    }
  }

  /** `buildWeeklySummaryBody(summary)`: the header, the entries' lines (or the empty notice), the footer. */
  method BuildWeeklySummaryBody(summary: seq<SummaryEntry>, url: string) returns (body: string)
    ensures body == WeeklySummaryBody(summary, url)
  {
    body := SummaryHeader;
    if |summary| == 0 {
      body := body + NoTransactionsLine;
    } else {
      body := AppendLines(body, SummaryLines(summary));
    }
    body := body + "\nView spreadsheet: " + url + "\n\n";
    body := body + Signature;
  }

  /** The `forEach` of `buildWeeklySummaryBody`: `body += line`, one line after the other. */
  method AppendLines(text: string, lines: seq<string>) returns (body: string)
    ensures body == text + Join(lines)
  {
    body := text;
    for i := 0 to |lines|
      invariant body == text + Join(lines[..i])
    {
      JoinSnoc(lines, i);
      body := body + lines[i];
    }
    assert lines[..|lines|] == lines;
  }

  // ---------------------------------------------------------------------
  // sendBudgetAlerts, sendWeeklySummary
  // ---------------------------------------------------------------------

  /** How `sendBudgetAlerts` ends when the Settings sheet exists. */
  datatype AlertRun = NoRecipient | NoAlerts | Sent(count: nat)

  /** The subject and body of one mail. */
  datatype Message = Message(subject: string, body: string)

  /** The subject and body `sendBudgetAlerts` builds for one alert. */
  function AlertMessage(a: Alert, url: string): Message
  {
    Message(AlertSubject(a), AlertBody(a, url))
  }

  /** The messages of the alerts, in order. */
  function AlertMessages(alerts: seq<Alert>, url: string): (r: seq<Message>)
    ensures |r| == |alerts|
  {
    seq(|alerts|, k requires 0 <= k < |alerts| => AlertMessage(alerts[k], url))
  }

  /** The messages as mails to `to`. */
  function Addressed(to: string, messages: seq<Message>): (r: seq<Mail>)
    ensures |r| == |messages|
  {
    seq(|messages|, k requires 0 <= k < |messages| => Mail(to, messages[k].subject, messages[k].body))
  }

  lemma AddressedSnoc(to: string, messages: seq<Message>, i: int)
    requires 0 <= i < |messages|
    ensures Addressed(to, messages[..i + 1])
            == Addressed(to, messages[..i]) + [Mail(to, messages[i].subject, messages[i].body)]
  {
  }

  /** Attempt `k` of `sendBudgetAlerts` carries the subject and body of alert `k`. */
  lemma AlertAttempt(to: string, alerts: seq<Alert>, url: string, k: int)
    requires 0 <= k < |alerts|
    ensures Addressed(to, AlertMessages(alerts, url))[k] == Mail(to, AlertSubject(alerts[k]), AlertBody(alerts[k], url))
  {
  }

  /** The Transactions sheet as the spec functions see it. */
  function LedgerRows(ledger: array?<TxRow>): Option<seq<TxRow>>
    reads ledger
  {
    if ledger == null then None else Some(ledger[..])
  }

  /** A present Settings sheet makes the budget settings readable. */
  lemma SettingsPresent(settings: SettingsSheet, totals: map<string, real>)
    requires settings.Some?
    ensures BudgetSummary(settings, totals).Success?
    ensures OverBudgetCategories(settings, totals).Success?
    ensures OverBudgetCategories(settings, totals).value
            == SelectAlerts(BudgetSummary(settings, totals).value, AlertThreshold(settings).value)
  {
    BudgetSettingsDefaults(settings);
  }

  /**
   * `sendBudgetAlerts()`: nothing without a recipient or without alerts;
   * otherwise one attempt per alert, in order, counting the ones that
   * went through.
   */
  method SendBudgetAlerts(settings: SettingsSheet, ledger: array?<TxRow>, url: string, mail: MailChannel)
    returns (r: Result<AlertRun, ConfigError>)
    modifies mail
    ensures settings.None? ==> r == Failure(SettingsSheetMissing) && mail.attempts == old(mail.attempts)
    ensures settings.Some? && !TruthySetting(GetSetting(settings, "Alert Email").value) ==>
              r == Success(NoRecipient) && mail.attempts == old(mail.attempts)
    ensures settings.Some? && TruthySetting(GetSetting(settings, "Alert Email").value) ==>
              var to := CellString(GetSetting(settings, "Alert Email").value.value);
              var alerts := OverBudgetCategories(settings, LedgerTotals(LedgerRows(ledger))).value;
              mail.attempts == old(mail.attempts) + Addressed(to, AlertMessages(alerts, url))
              && r == Success(if alerts == [] then NoAlerts
                              else Sent(Delivered(mail.failures, |old(mail.attempts)|, |alerts|)))
  {
    var found := GetSetting(settings, "Alert Email");
    if found.Failure? {
      return Failure(found.error);
    }
    var email := found.value;
    if !TruthySetting(email) {
      return Success(NoRecipient);
    }
    var overBudget := GetOverBudgetCategories(settings, ledger);
    SettingsPresent(settings, LedgerTotals(LedgerRows(ledger)));
    var alerts := overBudget.value;
    if |alerts| == 0 {
      return Success(NoAlerts);
    }
    var sent := SendEach(mail, email, AlertMessages(alerts, url));
    return Success(Sent(sent));
  }

  /** The loop of `sendBudgetAlerts`: one attempt per message, in order, counting those that went through. */
  method SendEach(mail: MailChannel, email: Option<Cell>, messages: seq<Message>) returns (sent: nat)
    requires TruthySetting(email)
    modifies mail
    ensures mail.attempts == old(mail.attempts) + Addressed(CellString(email.value), messages)
    ensures sent == Delivered(mail.failures, |old(mail.attempts)|, |messages|)
  {
    ghost var to := CellString(email.value);
    ghost var start := |mail.attempts|;
    sent := 0;
    for i := 0 to |messages|
      invariant mail.attempts == old(mail.attempts) + Addressed(to, messages[..i])
      invariant sent == Delivered(mail.failures, start, i)
    {
      AddressedSnoc(to, messages, i);
      var ok := mail.SendAlert(email, messages[i].subject, messages[i].body);
      if ok {
        sent := sent + 1;
      }
    }
    assert messages[..|messages|] == messages;
  }

  /** How `sendWeeklySummary` ends when the Settings sheet exists. */
  datatype SummaryRun = NoSummaryRecipient | SummaryAttempted(delivered: bool)

  /** `sendWeeklySummary()`: one attempt with the summary when there is a recipient, even for an empty summary. */
  method SendWeeklySummary(settings: SettingsSheet, ledger: array?<TxRow>, url: string, mail: MailChannel)
    returns (r: Result<SummaryRun, ConfigError>)
    modifies mail
    ensures settings.None? ==> r == Failure(SettingsSheetMissing) && mail.attempts == old(mail.attempts)
    ensures settings.Some? && !TruthySetting(GetSetting(settings, "Alert Email").value) ==>
              r == Success(NoSummaryRecipient) && mail.attempts == old(mail.attempts)
    ensures settings.Some? && TruthySetting(GetSetting(settings, "Alert Email").value) ==>
              var to := CellString(GetSetting(settings, "Alert Email").value.value);
              var summary := BudgetSummary(settings, LedgerTotals(LedgerRows(ledger))).value;
              mail.attempts == old(mail.attempts) + [Mail(to, "Weekly Budget Summary", WeeklySummaryBody(summary, url))]
              && r == Success(SummaryAttempted(|old(mail.attempts)| !in mail.failures))
  {
    var found := GetSetting(settings, "Alert Email");
    if found.Failure? {
      return Failure(found.error);
    }
    var email := found.value;
    if !TruthySetting(email) {
      return Success(NoSummaryRecipient);
    }
    var result := GetBudgetSummary(settings, ledger);
    SettingsPresent(settings, LedgerTotals(LedgerRows(ledger)));
    var body := BuildWeeklySummaryBody(result.value, url);
    var ok := mail.SendAlert(email, "Weekly Budget Summary", body);
    return Success(SummaryAttempted(ok));
  }
}
