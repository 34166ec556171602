/**
 * Formatting helpers and the Settings reader (src/Utils.js).
 *
 * `FormatCurrency` and `FormatPercent` each come with a reader that takes
 * their output back to the number it stands for; the round-trip lemmas say
 * what the printed text means. `GetSetting` is the first-match search over
 * the Settings rows, `GetSettingAsNumber` the case split over the value found.
 */
module Utils {
  import opened Strings
  import opened Values

  // ---------------------------------------------------------------------
  // formatCurrency
  // ---------------------------------------------------------------------

  /** `symbol || '$'`: an absent or empty symbol is the dollar sign. */
  function CurrencySymbol(symbol: string): (r: string)
    ensures symbol == "" ==> r == "$"
    ensures symbol != "" ==> r == symbol
  {
    if symbol == "" then "$" else symbol
  }

  /** `Number(amount)`, with NaN replaced by 0. */
  function AmountOrZero(amount: Cell): real
  {
    match CellNumber(amount)
    case Some(x) => x
    case None => 0.0
  }

  /** `Math.abs(num).toFixed(2)` as a whole number of cents (a half cent rounds up). */
  function Cents(num: real): nat
  {
    var a := if num < 0.0 then -num else num;
    var c := RoundHalfUp(a * 100.0);
    assert c >= 0;
    c
  }

  /** The integer digits with ',' inserted every three digits from the right. */
  function Group(d: string): string
  {
    if |d| <= 3 then d else Group(d[..|d| - 3]) + "," + d[|d| - 3..]
  }

  /**
   * Reads comma-grouped digits: one to three digits first, then groups of
   * exactly three each preceded by ','. None for any other text.
   */
  function ReadGroups(g: string): Option<nat>
    decreases |g|
  {
    if 1 <= |g| <= 3 && AllDigits(g) then Some(DigitsValue(g))
    else if |g| > 4 && g[|g| - 4] == ',' && AllDigits(g[|g| - 3..]) then
      match ReadGroups(g[..|g| - 4])
      case Some(v) => Some(1000 * v + DigitsValue(g[|g| - 3..]))
      case None => None
    else None
  }

  /** Three more digits multiply the value by a thousand. */
  lemma DigitsValueThreeMore(a: string, t: string)
    requires AllDigits(a) && AllDigits(t) && |t| == 3
    ensures AllDigits(a + t) && DigitsValue(a + t) == 1000 * DigitsValue(a) + DigitsValue(t)
  {
    DigitsValueOneMore(a, t[0]);
    DigitsValueOneMore(a + [t[0]], t[1]);
    DigitsValueOneMore(a + [t[0]] + [t[1]], t[2]);
    assert a + [t[0]] + [t[1]] + [t[2]] == a + t;
    DigitsValueOneMore([], t[0]);
    DigitsValueOneMore([t[0]], t[1]);
    DigitsValueOneMore([t[0]] + [t[1]], t[2]);
    assert [] + [t[0]] == [t[0]];
    assert [t[0]] + [t[1]] + [t[2]] == t;
  }

  lemma SplitAt(d: string, k: nat)
    requires k <= |d|
    ensures d[..k] + d[k..] == d
  {
  }

  /** Where the pieces of `g + "," + tail` stand. */
  lemma CommaGroupShape(g: string, tail: string)
    requires |tail| == 3
    ensures var r := g + "," + tail; |r| == |g| + 4 && r[|r| - 4] == ',' && r[|r| - 3..] == tail && r[..|r| - 4] == g
  {
  }

  /** A further group of three digits after a ',' multiplies what was read by a thousand and adds itself. */
  lemma ReadGroupsStep(g: string, tail: string)
    requires ReadGroups(g).Some? && AllDigits(tail) && |tail| == 3
    ensures ReadGroups(g + "," + tail) == Some(1000 * ReadGroups(g).value + DigitsValue(tail))
  {
    assert |g| >= 1;
    CommaGroupShape(g, tail);
  }

  /** Grouping puts the commas where the reader expects them and loses no digit. */
  lemma {:induction false} GroupReadsBack(d: string)
    requires AllDigits(d) && |d| >= 1
    ensures ReadGroups(Group(d)) == Some(DigitsValue(d))
    decreases |d|
  {
    if |d| > 3 {
      var head, tail := d[..|d| - 3], d[|d| - 3..];
      GroupReadsBack(head);
      assert Group(d) == Group(head) + "," + tail;
      ReadGroupsStep(Group(head), tail);
      SplitAt(d, |d| - 3);
      DigitsValueThreeMore(head, tail);
    }
  }

  function TwoDigits(c: nat): (s: string)
    requires c < 100
    ensures |s| == 2 && AllDigits(s)
  {
    [Digit(c / 10), Digit(c % 10)]
  }

  /** The unsigned part of a formatted amount: symbol, grouped whole units, '.', two digits of cents. */
  function CurrencyDigits(cents: nat, sym: string): string
  {
    sym + Group(IntStr(cents / 100)) + "." + TwoDigits(cents % 100)
  }

  /** `formatCurrency(amount, symbol)`; the empty `symbol` stands for an absent one. */
  function FormatCurrency(amount: Cell, symbol: string): string
  {
    FormatNumber(AmountOrZero(amount), symbol)
  }

  /** `formatCurrency` once the amount is a number: a '-' for a negative amount, then the unsigned text. */
  function FormatNumber(num: real, symbol: string): string
  {
    var unsigned := CurrencyDigits(Cents(num), CurrencySymbol(symbol));
    if num < 0.0 then "-" + unsigned else unsigned
  }

  /**
   * Reads a formatted amount back: an optional '-', the symbol, grouped
   * digits, '.', two digits. None when the text does not have that shape.
   */
  function ReadCurrency(s: string, symbol: string): Option<real>
  {
    if |s| > 0 && s[0] == '-' then
      match ReadUnsigned(s[1..], symbol)
      case Some(v) => Some(-v)
      case None => None
    else ReadUnsigned(s, symbol)
  }

  function ReadUnsigned(t: string, symbol: string): Option<real>
  {
    if StartsWith(t, symbol) then ReadAmount(t[|symbol|..]) else None
  }

  /** Grouped digits, '.', two digits. */
  function ReadAmount(body: string): Option<real>
  {
    if |body| < 4 || body[|body| - 3] != '.' then None
    else
      var g := body[..|body| - 3];
      var f := body[|body| - 2..];
      if !AllDigits(f) then None
      else match ReadGroups(g)
        case Some(w) => Some(w as real + DigitsValue(f) as real / 100.0)
        case None => None
  }

  lemma TwoDigitsValue(m: nat)
    requires m < 100
    ensures DigitsValue(TwoDigits(m)) == m
  {
    var t := TwoDigits(m);
    assert t[..1] == [Digit(m / 10)];
    assert DigitsValue(t[..1]) == m / 10 by {
      assert t[..1][..0] == [];
    }
    assert DigitValue(t[1]) == m % 10;
  }

  /** The reader takes apart exactly the pieces an unsigned formatted amount is made of. */
  lemma ReadUnsignedPieces(sym: string, g: string, f: string)
    requires ReadGroups(g).Some? && |f| == 2 && AllDigits(f)
    ensures ReadUnsigned(sym + g + "." + f, sym)
              == Some(ReadGroups(g).value as real + DigitsValue(f) as real / 100.0)
  {
    var body := g + "." + f;
    var u := sym + g + "." + f;
    assert |g| >= 1;
    assert body[|body| - 3] == '.' && body[..|body| - 3] == g && body[|body| - 2..] == f;
    assert u == sym + body;
    assert u[..|sym|] == sym && u[|sym|..] == body;
  }

  /** A leading '-' negates what the rest reads as; without it the text reads as it is. */
  lemma ReadCurrencySign(u: string, sym: string)
    requires |sym| >= 1 && sym[0] != '-' && StartsWith(u, sym)
    ensures ReadCurrency(u, sym) == ReadUnsigned(u, sym)
    ensures ReadCurrency("-" + u, sym)
              == (match ReadUnsigned(u, sym) case Some(v) => Some(-v) case None => None)
  {
    assert u[0] == sym[0];
    assert ("-" + u)[1..] == u;
  }

  /**
   * The text `FormatCurrency` prints reads back as the amount rounded to
   * the nearest cent, with the sign of the unrounded amount (for a symbol
   * that does not itself begin with '-').
   */
  lemma FormatCurrencyReadsBack(amount: Cell, symbol: string)
    requires CurrencySymbol(symbol)[0] != '-'
    ensures var num := AmountOrZero(amount);
            ReadCurrency(FormatCurrency(amount, symbol), CurrencySymbol(symbol))
              == Some(if num < 0.0 then -Round2(-num) else Round2(num))
  {
    FormatNumberReadsBack(AmountOrZero(amount), symbol);
  }

  lemma FormatNumberReadsBack(num: real, symbol: string)
    requires CurrencySymbol(symbol)[0] != '-'
    ensures ReadCurrency(FormatNumber(num, symbol), CurrencySymbol(symbol))
              == Some(if num < 0.0 then -Round2(-num) else Round2(num))
  {
    var sym := CurrencySymbol(symbol);
    var u := CurrencyDigits(Cents(num), sym);
    CurrencyDigitsReadBack(Cents(num), sym);
    ReadCurrencySign(u, sym);
    CentsAreRound2(num);
  }

  /** The unsigned text reads back as the number of cents over 100. */
  lemma CurrencyDigitsReadBack(c: nat, sym: string)
    ensures StartsWith(CurrencyDigits(c, sym), sym)
    ensures ReadUnsigned(CurrencyDigits(c, sym), sym) == Some(c as real / 100.0)
  {
    var q, m := c / 100, c % 100;
    var g := Group(IntStr(q));
    var u := CurrencyDigits(c, sym);
    GroupReadsBack(IntStr(q));
    IntStrValue(q);
    TwoDigitsValue(m);
    ReadUnsignedPieces(sym, g, TwoDigits(m));
    assert u[..|sym|] == sym;
    assert c == 100 * q + m;
  }

  /** The cents `toFixed(2)` prints are the magnitude rounded to the nearest cent. */
  lemma CentsAreRound2(num: real)
    ensures Cents(num) as real / 100.0 == Round2(if num < 0.0 then -num else num)
  {
  }

  /** The '-' comes first, before the symbol, exactly when the unrounded amount is negative. */
  lemma FormatCurrencySign(amount: Cell, symbol: string)
    requires CurrencySymbol(symbol)[0] != '-'
    ensures var s := FormatCurrency(amount, symbol);
            s[0] == '-' <==> AmountOrZero(amount) < 0.0
    ensures var s := FormatCurrency(amount, symbol);
            AmountOrZero(amount) < 0.0 ==> s[1..] == FormatCurrency(Num(-AmountOrZero(amount)), symbol)
  {
    var num := AmountOrZero(amount);
    var sym := CurrencySymbol(symbol);
    var u := CurrencyDigits(Cents(num), sym);
    assert u[0] == sym[0];
    if num < 0.0 {
      assert AmountOrZero(Num(-num)) == -num;
      assert Cents(-num) == Cents(num);
      assert ("-" + u)[1..] == u;
    }
  }

  /** Non-numeric input prints as zero. */
  lemma FormatCurrencyNonNumeric(amount: Cell)
    requires CellNumber(amount).None?
    ensures FormatCurrency(amount, "") == "$0.00"
  {
    RoundHalfUpUnique(0.0, 0);
    assert Cents(AmountOrZero(amount)) == 0;
    assert Group(IntStr(0)) == "0";
    assert TwoDigits(0) == "00";
  }

  // ---------------------------------------------------------------------
  // formatPercent
  // ---------------------------------------------------------------------

  /** A number of tenths as `toFixed(0)` (whole) or `toFixed(1)` (otherwise) prints it. */
  function TenthsText(k: nat): string
  {
    IntStr(k / 10) + (if k % 10 == 0 then "" else "." + [Digit(k % 10)])
  }

  /** `Math.round(num * 1000)`: the percentage in tenths that `formatPercent` prints; 0 for NaN and negatives. */
  function PercentTenths(value: Cell): nat
  {
    match CellNumber(value)
    case None => 0
    case Some(x) =>
      if x < 0.0 then 0 else var k := RoundHalfUp(x * 1000.0); assert k >= 0; k
  }

  /** `formatPercent(value)`. */
  function FormatPercent(value: Cell): string
  {
    match CellNumber(value)
    case None => "0%"
    case Some(x) => if x < 0.0 then "0%" else TenthsText(PercentTenths(value)) + "%"
  }

  /** Reads a printed percentage back as tenths: digits, optionally '.' and one digit, then '%'. */
  function ReadTenths(s: string): Option<nat>
  {
    if !EndsWith(s, "%") then None
    else
      var body := s[..|s| - 1];
      if |body| >= 3 && body[|body| - 2] == '.' && IsDigit(body[|body| - 1])
         && AllDigits(body[..|body| - 2])
      then Some(10 * DigitsValue(body[..|body| - 2]) + DigitValue(body[|body| - 1]))
      else if |body| >= 1 && AllDigits(body) then Some(10 * DigitsValue(body))
      else None
  }

  lemma IntStrHasNoDot(n: nat)
    ensures '.' !in IntStr(n)
  {
    var s := IntStr(n);
    forall i | 0 <= i < |s| ensures s[i] != '.' {
      assert IsDigit(s[i]);
    }
  }

  /**
   * A number of tenths printed and followed by '%' reads back to itself,
   * with a decimal point exactly when it is not a whole number.
   */
  lemma TenthsTextReadsBack(k: nat)
    ensures ReadTenths(TenthsText(k) + "%") == Some(k)
    ensures ('.' in TenthsText(k)) <==> k % 10 != 0
  {
    var s := TenthsText(k) + "%";
    var w := IntStr(k / 10);
    IntStrValue(k / 10);
    IntStrHasNoDot(k / 10);
    if k % 10 == 0 {
      assert s == w + "%" && s[..|s| - 1] == w;
      if |w| >= 3 {
        assert w[|w| - 2] != '.';
      }
    } else {
      var body := w + "." + [Digit(k % 10)];
      assert s == body + "%" && s[..|s| - 1] == body;
      assert body[..|body| - 2] == w && body[|body| - 1] == Digit(k % 10);
      assert body[|body| - 2] == '.';
      assert body[|w|] == '.';
    }
  }

  /**
   * `FormatPercent` prints the tenths it computed and nothing else: the
   * text reads back to them, ends with '%', and has a decimal point
   * exactly when the percentage is not whole.
   */
  lemma FormatPercentReadsBack(value: Cell)
    ensures var s := FormatPercent(value);
            EndsWith(s, "%") && ReadTenths(s) == Some(PercentTenths(value))
    ensures ('.' in FormatPercent(value)) <==> PercentTenths(value) % 10 != 0
  {
    var k := PercentTenths(value);
    assert TenthsText(0) == "0";
    assert FormatPercent(value) == TenthsText(k) + "%";
    TenthsTextReadsBack(k);
  }

  /** NaN and negative fractions print as "0%". */
  lemma FormatPercentInvalid(value: Cell)
    requires CellNumber(value).None? || CellNumber(value).value < 0.0
    ensures FormatPercent(value) == "0%"
  {
  }

  // ---------------------------------------------------------------------
  // getSetting
  // ---------------------------------------------------------------------

  /** A Settings row whose trimmed name is the (already trimmed) `key`. */
  predicate KeyMatches(row: SettingRow, key: string)
  {
    Trim(CellString(row.key)) == key
  }

  /** The early-return loop over rows `i`, `i + 1`, ...: the value of the first matching row. */
  function FindSetting(rows: seq<SettingRow>, key: string, i: nat): Option<Cell>
    decreases |rows| - i
  {
    if i >= |rows| then None
    else if KeyMatches(rows[i], key) then Some(rows[i].value)
    else FindSetting(rows, key, i + 1)
  }

  /** `getSetting(key)`: fails when the sheet is absent; None is `null` (no row has that name). */
  function GetSetting(sheet: SettingsSheet, key: string): (r: Result<Option<Cell>, ConfigError>)
    ensures sheet.None? <==> r.Failure?
  {
    match sheet
    case None => Failure(SettingsSheetMissing)
    case Some(rows) => Success(FindSetting(rows, Trim(key), 1))
  }

  /** No row in `rows[lo..hi]` has the name `key`. */
  predicate NoMatchBetween(rows: seq<SettingRow>, key: string, lo: nat, hi: nat)
  {
    forall m :: lo <= m < hi && m < |rows| ==> !KeyMatches(rows[m], key)
  }

  /** The search finds nothing exactly when no row from `i` on has the name. */
  lemma {:induction false} FindSettingNone(rows: seq<SettingRow>, key: string, i: nat)
    ensures FindSetting(rows, key, i).None? <==> NoMatchBetween(rows, key, i, |rows|)
    decreases |rows| - i
  {
    if i < |rows| && !KeyMatches(rows[i], key) {
      FindSettingNone(rows, key, i + 1);
    }
  }

  /** The search returns the value of the first row from `i` on that has the name. */
  lemma {:induction false} FindSettingFirstMatch(rows: seq<SettingRow>, key: string, i: nat, j: nat)
    requires i <= j < |rows| && KeyMatches(rows[j], key) && NoMatchBetween(rows, key, i, j)
    ensures FindSetting(rows, key, i) == Some(rows[j].value)
    decreases j - i
  {
    if i < j {
      assert !KeyMatches(rows[i], key);
      FindSettingFirstMatch(rows, key, i + 1, j);
    }
  }

  /**
   * With the sheet present, `getSetting` skips the header row and returns
   * the value of the first row whose trimmed name equals the trimmed key,
   * and null exactly when no row below the header has that name.
   */
  lemma GetSettingMeaning(rows: seq<SettingRow>, key: string)
    ensures GetSetting(Some(rows), key).Success?
    ensures GetSetting(Some(rows), key).value.None? <==> NoMatchBetween(rows, Trim(key), 1, |rows|)
    ensures forall j :: 1 <= j < |rows| && KeyMatches(rows[j], Trim(key)) && NoMatchBetween(rows, Trim(key), 1, j)
                        ==> GetSetting(Some(rows), key).value == Some(rows[j].value)
  {
    FindSettingNone(rows, Trim(key), 1);
    forall j | 1 <= j < |rows| && KeyMatches(rows[j], Trim(key)) && NoMatchBetween(rows, Trim(key), 1, j)
      ensures GetSetting(Some(rows), key).value == Some(rows[j].value)
    {
      FindSettingFirstMatch(rows, Trim(key), 1, j);
    }
  }

  // ---------------------------------------------------------------------
  // getSettingAsNumber
  // ---------------------------------------------------------------------

  /** `str.replace('%', '')`: drops the first '%' only. */
  function RemoveFirstPercent(s: string): (r: string)
    ensures '%' !in s ==> r == s
  {
    if s == [] then []
    else if s[0] == '%' then s[1..]
    else [s[0]] + RemoveFirstPercent(s[1..])
  }

  /** The number a looked-up setting value stands for, or `fallback`. */
  function SettingNumber(raw: Option<Cell>, fallback: real): real
  {
    match raw
    case None => fallback
    case Some(c) =>
      match c
      case Empty => fallback
      // String(n) never ends in '%' and parseFloat(String(n)) is n again.
      case Num(n) => n
      case Text(s) => if s == "" then fallback else TextNumber(Trim(s), fallback)
  }

  /** A trimmed, non-empty setting text: "N%" is N / 100, otherwise `parseFloat`, NaN giving `fallback`. */
  function TextNumber(str: string, fallback: real): real
  {
    if EndsWith(str, "%") then
      match ParseFloat(RemoveFirstPercent(str))
      case Some(p) => p / 100.0
      case None => fallback
    else
      match ParseFloat(str)
      case Some(x) => x
      case None => fallback
  }


  /** `getSettingAsNumber(key, defaultValue)`; an absent default is None and means 0. */
  function GetSettingAsNumber(sheet: SettingsSheet, key: string, default: Option<real>): (r: Result<real, ConfigError>)
    ensures r.Failure? <==> sheet.None?
  {
    var fallback := match default case Some(d) => d case None => 0.0;
    match GetSetting(sheet, key)
    case Failure(e) => Failure(e)
    case Success(raw) => Success(SettingNumber(raw, fallback))
  }

  /** A missing key, an empty value, and no default at all. */
  lemma SettingNumberDefaults(sheet: SettingsSheet, key: string, default: Option<real>)
    requires sheet.Some?
    requires var raw := GetSetting(sheet, key).value;
             raw == None || raw == Some(Empty) || raw == Some(Text(""))
    ensures GetSettingAsNumber(sheet, key, default)
              == Success(if default.Some? then default.value else 0.0)
  {
  }

  /** A literal holds no '%'. */
  lemma LiteralHasNoPercent(sign: string, w: string, dot: bool, f: string)
    requires IsLiteral(sign, w, dot, f)
    ensures '%' !in Literal(sign, w, dot, f)
  {
    forall i | 0 <= i < |w| ensures w[i] != '%' {
      assert IsDigit(w[i]);
    }
    forall i | 0 <= i < |f| ensures f[i] != '%' {
      assert IsDigit(f[i]);
    }
  }

  /** Text that ends in '%' holds a '%'. */
  lemma EndsWithPercent(t: string)
    ensures EndsWith(t, "%") ==> '%' in t
  {
    if EndsWith(t, "%") {
      assert t[|t| - 1] == t[|t| - 1..][0];
    }
  }

  /** Removing the first '%' of text whose only '%' is its last character leaves the text before it. */
  lemma {:induction false} RemoveTrailingPercent(t: string)
    requires '%' !in t
    ensures RemoveFirstPercent(t + "%") == t
    decreases |t|
  {
    if t != [] {
      assert (t + "%")[1..] == t[1..] + "%";
      RemoveTrailingPercent(t[1..]);
    }
  }

  /**
   * "N%" is N / 100 for any decimal literal N, signed or not, with or
   * without fraction digits, and with white space or other text between
   * the number and the '%' ("80 %" is 0.8).
   */
  lemma TextNumberPercent(sign: string, w: string, dot: bool, f: string, rest: string, fallback: real)
    requires IsLiteral(sign, w, dot, f) && StopsLiteral(dot, rest) && '%' !in rest
    ensures TextNumber(Literal(sign, w, dot, f) + rest + "%", fallback) == LiteralValue(sign, w, f) / 100.0
  {
    var t := Literal(sign, w, dot, f) + rest;
    var str := t + "%";
    assert str[|str| - 1..] == "%";
    LiteralHasNoPercent(sign, w, dot, f);
    RemoveTrailingPercent(t);
    ParseFloatLiteral(sign, w, dot, f, rest);
  }

  lemma SettingNumberPercent(s: string, sign: string, w: string, dot: bool, f: string, rest: string, fallback: real)
    requires IsLiteral(sign, w, dot, f) && StopsLiteral(dot, rest) && '%' !in rest
    requires Trim(s) == Literal(sign, w, dot, f) + rest + "%"
    ensures SettingNumber(Some(Text(s)), fallback) == LiteralValue(sign, w, f) / 100.0
  {
    TrimNonEmpty(s);
    TextNumberPercent(sign, w, dot, f, rest, fallback);
  }

  /** Text with no '%' is `parseFloat` of it: a decimal literal, then anything that does not continue it. */
  lemma TextNumberPlain(sign: string, w: string, dot: bool, f: string, rest: string, fallback: real)
    requires IsLiteral(sign, w, dot, f) && StopsLiteral(dot, rest) && '%' !in rest
    ensures TextNumber(Literal(sign, w, dot, f) + rest, fallback) == LiteralValue(sign, w, f)
  {
    var str := Literal(sign, w, dot, f) + rest;
    LiteralHasNoPercent(sign, w, dot, f);
    EndsWithPercent(str);
    ParseFloatLiteral(sign, w, dot, f, rest);
  }

  lemma SettingNumberPlain(s: string, sign: string, w: string, dot: bool, f: string, rest: string, fallback: real)
    requires IsLiteral(sign, w, dot, f) && StopsLiteral(dot, rest) && '%' !in rest
    requires Trim(s) == Literal(sign, w, dot, f) + rest
    ensures SettingNumber(Some(Text(s)), fallback) == LiteralValue(sign, w, f)
  {
    TrimNonEmpty(s);
    TextNumberPlain(sign, w, dot, f, rest, fallback);
  }

  lemma ExampleValues()
    ensures LiteralValue("", "12", "5") == 12.5
    ensures LiteralValue("", "0", "75") == 0.75
  {
    assert "12"[..1] == "1" && "1"[..0] == [];
    assert "5"[1..] == [];
    assert "0"[..0] == [];
    assert "75"[1..] == "5";
  }

  lemma ExampleTexts()
    ensures Literal("", "12", true, "5") + "" + "%" == "12.5%" && Trim("12.5%") == "12.5%"
    ensures Literal("", "0", true, "75") + "" == "0.75" && Trim(" 0.75 ") == "0.75"
  {
    TrimOfTrimmed("12.5%");
    assert TrimStart(" 0.75 ") == "0.75 ";
    assert "0.75 "[..4] == "0.75";
  }

  /** A percentage as a spreadsheet holds it: "12.5%" is 0.125. */
  lemma SettingNumberFractionalPercent(fallback: real)
    ensures SettingNumber(Some(Text("12.5%")), fallback) == 0.125
  {
    ExampleTexts();
    ExampleValues();
    SettingNumberPercent("12.5%", "", "12", true, "5", "", fallback);
  }

  /** A plain fraction with white space around it: " 0.75 " is 0.75. */
  lemma SettingNumberFraction(fallback: real)
    ensures SettingNumber(Some(Text(" 0.75 ")), fallback) == 0.75
  {
    ExampleTexts();
    ExampleValues();
    SettingNumberPlain(" 0.75 ", "", "0", true, "75", "", fallback);
  }

  /**
   * Every text that `parseFloat` cannot read gives the default: past its
   * leading white space, the text (less its first '%' when it ends in '%')
   * does not start like a number. This covers "abc", "+abc", ".x", "%5"
   * and "- 1".
   */
  lemma SettingNumberUnparsable(s: string, fallback: real)
    requires var t := Trim(s);
             t != [] && !StartsLikeNumber(TrimStart(if EndsWith(t, "%") then RemoveFirstPercent(t) else t))
    ensures SettingNumber(Some(Text(s)), fallback) == fallback
  {
    var str := Trim(s);
    TrimNonEmpty(s);
    if EndsWith(str, "%") {
      ParseFloatNaN(RemoveFirstPercent(str));
    } else {
      ParseFloatNaN(str);
    }
  }

  /** "+abc" and "%5" are not numbers to `parseFloat`, so both give the default. */
  lemma SettingNumberUnparsableExamples(fallback: real)
    ensures SettingNumber(Some(Text("+abc")), fallback) == fallback
    ensures SettingNumber(Some(Text("%5")), fallback) == fallback
  {
    assert Trim("+abc") == "+abc";
    assert Trim("%5") == "%5";
    SettingNumberUnparsable("+abc", fallback);
    SettingNumberUnparsable("%5", fallback);
  }
}
