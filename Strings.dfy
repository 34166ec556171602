/**
 * String helpers shared by the budget engine: the whitespace that
 * JavaScript's `trim` removes, ASCII upper-casing, decimal digit strings,
 * and the two ways the source turns text into a number (`Number(text)`,
 * which must consume the whole trimmed text, and `parseFloat(text)`, which
 * reads the longest decimal prefix).
 */
module Strings {

  datatype Option<+T> = None | Some(value: T)

  // ---------------------------------------------------------------------
  // Whitespace and trimming
  // ---------------------------------------------------------------------

  /** The characters `String.prototype.trim` strips (white space and line terminators). */
  predicate IsSpace(c: char)
  {
    c == ' ' || c == '\t' || c == '\n' || c == '\r' || c == '\U{000B}' || c == '\U{000C}'
    || c == '\U{00A0}' || c == '\U{1680}' || ('\U{2000}' <= c <= '\U{200A}')
    || c == '\U{2028}' || c == '\U{2029}' || c == '\U{202F}' || c == '\U{205F}'
    || c == '\U{3000}' || c == '\U{FEFF}'
  }

  /** `s` without its leading white space. */
  function TrimStart(s: string): string
  {
    if s == [] || !IsSpace(s[0]) then s else TrimStart(s[1..])
  }

  /** `s` without its trailing white space. */
  function TrimEnd(s: string): string
  {
    if s == [] || !IsSpace(s[|s| - 1]) then s else TrimEnd(s[..|s| - 1])
  }

  /** `s.trim()`: the longest infix of `s` that neither starts nor ends with white space. */
  function Trim(s: string): string
  {
    TrimEnd(TrimStart(s))
  }

  /** `TrimStart` removes a run of white space from the front and stops at the first other character. */
  lemma {:induction false} TrimStartFacts(s: string)
    ensures var r := TrimStart(s);
            |r| <= |s| && r == s[|s| - |r|..] && (r == [] || !IsSpace(r[0]))
            && forall i :: 0 <= i < |s| - |r| ==> IsSpace(s[i])
    decreases |s|
  {
    if s != [] && IsSpace(s[0]) {
      TrimStartFacts(s[1..]);
    }
  }

  /** `TrimEnd` removes a run of white space from the back and stops at the last other character. */
  lemma {:induction false} TrimEndFacts(s: string)
    ensures var r := TrimEnd(s);
            |r| <= |s| && r == s[..|r|] && (r == [] || !IsSpace(r[|r| - 1]))
            && forall i :: |r| <= i < |s| ==> IsSpace(s[i])
    decreases |s|
  {
    if s != [] && IsSpace(s[|s| - 1]) {
      TrimEndFacts(s[..|s| - 1]);
    }
  }

  predicate Trimmed(s: string)
  {
    s == [] || (!IsSpace(s[0]) && !IsSpace(s[|s| - 1]))
  }

  lemma TrimIsTrimmed(s: string)
    ensures Trimmed(Trim(s))
  {
    var t := TrimStart(s);
    var r := TrimEnd(t);
    TrimStartFacts(s);
    TrimEndFacts(t);
    if r != [] {
      assert r[0] == t[0];
    }
  }

  lemma TrimOfTrimmed(s: string)
    requires Trimmed(s)
    ensures Trim(s) == s
  {
    assert TrimStart(s) == s;
  }

  /** Trimming twice is trimming once. */
  lemma TrimIdempotent(s: string)
    ensures Trim(Trim(s)) == Trim(s)
  {
    TrimIsTrimmed(s);
    TrimOfTrimmed(Trim(s));
  }

  /** Text that trims to something non-empty is not empty itself. */
  lemma TrimNonEmpty(s: string)
    requires Trim(s) != ""
    ensures s != ""
  {
    TrimStartFacts(s);
    TrimEndFacts(TrimStart(s));
  }

  // ---------------------------------------------------------------------
  // Upper-casing (ASCII letters only)
  // ---------------------------------------------------------------------

  function UpperChar(c: char): char
  {
    if 'a' <= c <= 'z' then (c as int - 32) as char else c
  }

  /** `s.toUpperCase()` restricted to the ASCII letters. */
  function Upper(s: string): (r: string)
    ensures |r| == |s|
    ensures forall i :: 0 <= i < |s| ==> r[i] == UpperChar(s[i])
  {
    seq(|s|, i requires 0 <= i < |s| => UpperChar(s[i]))
  }

  /** Currency codes are compared after trimming and upper-casing. */
  function Normalize(code: string): string
  {
    Upper(Trim(code))
  }

  lemma NormalizeIdempotent(code: string)
    ensures Normalize(Normalize(code)) == Normalize(code)
  {
    var t := Trim(code);
    TrimIsTrimmed(code);
    UpperKeepsTrimmed(t);
    TrimOfTrimmed(Upper(t));
    UpperIdempotent(t);
  }

  lemma UpperKeepsTrimmed(t: string)
    requires Trimmed(t)
    ensures Trimmed(Upper(t))
  {
    if t != [] {
      UpperCharSpace(t[0]);
      UpperCharSpace(t[|t| - 1]);
    }
  }

  lemma UpperIdempotent(t: string)
    ensures Upper(Upper(t)) == Upper(t)
  {
    var u := Upper(t);
    forall i | 0 <= i < |u| ensures Upper(u)[i] == u[i] {
      UpperCharIdempotent(t[i]);
    }
  }

  lemma UpperCharSpace(c: char)
    ensures IsSpace(UpperChar(c)) == IsSpace(c)
  {
  }

  lemma UpperCharIdempotent(c: char)
    ensures UpperChar(UpperChar(c)) == UpperChar(c)
  {
  }

  // ---------------------------------------------------------------------
  // Decimal digits
  // ---------------------------------------------------------------------

  predicate IsDigit(c: char)
  {
    '0' <= c <= '9'
  }

  predicate AllDigits(s: string)
  {
    forall i :: 0 <= i < |s| ==> IsDigit(s[i])
  }

  function Digit(d: nat): (c: char)
    requires d < 10
    ensures IsDigit(c)
  {
    (48 + d) as char
  }

  function DigitValue(c: char): (d: nat)
    requires IsDigit(c)
    ensures d < 10 && Digit(d) == c
  {
    c as int - 48
  }

  /** The value of the digits after a decimal point, most significant first: "25" is 0.25. */
  function FractionValue(f: string): real
    requires AllDigits(f)
  {
    if f == [] then 0.0 else (DigitValue(f[0]) as real + FractionValue(f[1..])) / 10.0
  }

  /** The number a digit string denotes, most significant digit first. */
  function DigitsValue(s: string): nat
    requires AllDigits(s)
  {
    if s == [] then 0 else 10 * DigitsValue(s[..|s| - 1]) + DigitValue(s[|s| - 1])
  }

  /** The shortest decimal numeral for `n`, as `String(n)` prints a non-negative integer. */
  function IntStr(n: nat): (s: string)
    ensures |s| >= 1 && AllDigits(s)
    ensures |s| > 1 ==> s[0] != '0'
  {
    if n < 10 then [Digit(n)] else IntStr(n / 10) + [Digit(n % 10)]
  }

  /** Reading back a printed integer gives that integer. */
  lemma {:induction false} IntStrValue(n: nat)
    ensures DigitsValue(IntStr(n)) == n
  {
    if n >= 10 {
      IntStrValue(n / 10);
      var s := IntStr(n);
      assert s[..|s| - 1] == IntStr(n / 10);
    }
  }

  lemma DigitsValueOneMore(s: string, c: char)
    requires AllDigits(s) && IsDigit(c)
    ensures AllDigits(s + [c]) && DigitsValue(s + [c]) == 10 * DigitsValue(s) + DigitValue(c)
  {
    assert (s + [c])[..|s|] == s;
  }

  // ---------------------------------------------------------------------
  // Decimal literals: the grammar [+-]? digits* ('.' digits*)? with at
  // least one digit.  Exponents, hexadecimal and "Infinity" are not read.
  // ---------------------------------------------------------------------

  /** The longest prefix of `s` made of digits. */
  function TakeDigits(s: string): (r: string)
    ensures |r| <= |s| && r == s[..|r|] && AllDigits(r)
    ensures |r| < |s| ==> !IsDigit(s[|r|])
  {
    if s == [] || !IsDigit(s[0]) then [] else [s[0]] + TakeDigits(s[1..])
  }

  lemma TakeDigitsOfDigits(d: string, rest: string)
    requires AllDigits(d)
    requires rest == [] || !IsDigit(rest[0])
    ensures TakeDigits(d + rest) == d
  {
    if d != [] {
      assert (d + rest)[1..] == d[1..] + rest;
      TakeDigitsOfDigits(d[1..], rest);
    } else {
      assert d + rest == rest;
    }
  }

  /** A decimal literal read from the front of a string: its value and how many characters it took. */
  datatype Scan = Scan(value: real, length: nat)

  function ScanDecimal(s: string): (r: Option<Scan>)
    ensures r.Some? ==> 1 <= r.value.length <= |s|
  {
    var signed := |s| > 0 && (s[0] == '+' || s[0] == '-');
    var rest := if signed then s[1..] else s;
    var ip := TakeDigits(rest);
    var after := rest[|ip|..];
    var dotted := |after| > 0 && after[0] == '.';
    var fp := if dotted then TakeDigits(after[1..]) else [];
    if |ip| + |fp| == 0 then None
    else
      var magnitude := DigitsValue(ip) as real + FractionValue(fp);
      Some(Scan(if signed && s[0] == '-' then -magnitude else magnitude,
                (if signed then 1 else 0) + |ip| + (if dotted then 1 else 0) + |fp|))
  }

  /** `parseFloat(s)`: the longest decimal prefix after leading white space; None stands for NaN. */
  function ParseFloat(s: string): Option<real>
  {
    match ScanDecimal(TrimStart(s))
    case Some(sc) => Some(sc.value)
    case None => None
  }

  /** `Number(s)` for a string: white space only is 0, otherwise the whole trimmed text must be a literal. */
  function ToNumber(s: string): Option<real>
  {
    var t := Trim(s);
    if t == [] then Some(0.0)
    else match ScanDecimal(t)
      case Some(sc) => if sc.length == |t| then Some(sc.value) else None
      case None => None
  }

  lemma DigitIsNotSpace(c: char)
    requires IsDigit(c)
    ensures !IsSpace(c)
  {
  }

  /** `Number(String(n))` is `n` for a whole number `n`. */
  lemma ToNumberIntStr(n: nat)
    ensures ToNumber(IntStr(n)) == Some(n as real)
  {
    var d := IntStr(n);
    ToNumberLiteral("", d, false, []);
    assert Literal("", d, false, []) == d;
    IntStrValue(n);
  }

  // ---------------------------------------------------------------------
  // Decimal literals in general: sign, whole digits, point, fraction digits
  // ---------------------------------------------------------------------

  /** The text `sign + w + "." + f`, the point present only when `dot` holds. */
  function Literal(sign: string, w: string, dot: bool, f: string): string
  {
    sign + w + (if dot then "." else "") + f
  }

  /** A literal the grammar above accepts: at most a one-character sign, at least one digit, fraction digits only after a point. */
  predicate IsLiteral(sign: string, w: string, dot: bool, f: string)
  {
    (sign == "" || sign == "+" || sign == "-") && AllDigits(w) && AllDigits(f)
    && |w| + |f| >= 1 && (dot || f == [])
  }

  /** The number a literal denotes: "-12.5" is -(12 + 0.5). */
  function LiteralValue(sign: string, w: string, f: string): real
    requires AllDigits(w) && AllDigits(f)
  {
    var m := DigitsValue(w) as real + FractionValue(f);
    if sign == "-" then -m else m
  }

  /** `rest` cannot continue the literal: it does not start with a digit, nor with a point unless the literal has one already. */
  predicate StopsLiteral(dot: bool, rest: string)
  {
    rest == [] || (!IsDigit(rest[0]) && (dot || rest[0] != '.'))
  }

  /** `ScanDecimal` reads a literal of `length` characters, worth `value`, from the front of `s`. */
  predicate ScansTo(s: string, value: real, length: nat)
  {
    ScanDecimal(s).Some? && ScanDecimal(s).value.value == value && ScanDecimal(s).value.length == length
  }

  /** Unsigned text with whole digits `ip` and then a point followed by fraction digits `fp` scans to their value. */
  lemma ScanWithPoint(s: string, ip: string, fp: string)
    requires s != [] && s[0] != '+' && s[0] != '-'
    requires TakeDigits(s) == ip && |ip| < |s| && s[|ip|] == '.'
    requires TakeDigits(s[|ip| + 1..]) == fp && |ip| + |fp| >= 1
    ensures ScansTo(s, DigitsValue(ip) as real + FractionValue(fp), |ip| + 1 + |fp|)
  {
    assert s[|ip|..][1..] == s[|ip| + 1..];
  }

  /** Unsigned text with whole digits `ip` and no point after them scans to their value. */
  lemma ScanWithoutPoint(s: string, ip: string)
    requires s != [] && s[0] != '+' && s[0] != '-'
    requires TakeDigits(s) == ip && !(|ip| < |s| && s[|ip|] == '.') && |ip| >= 1
    ensures ScansTo(s, DigitsValue(ip) as real + FractionValue([]), |ip|)
  {
  }

  /** Whole digits, a point and fraction digits, then `rest`: the parts `ScanDecimal` takes apart. */
  lemma ShapeWithPoint(w: string, f: string, rest: string)
    requires AllDigits(w) && AllDigits(f) && |w| + |f| >= 1
    requires rest == [] || !IsDigit(rest[0])
    ensures var s := Literal("", w, true, f) + rest;
            s[0] != '+' && s[0] != '-' && TakeDigits(s) == w
            && |w| < |s| && s[|w|] == '.' && TakeDigits(s[|w| + 1..]) == f
  {
    var s := Literal("", w, true, f) + rest;
    assert s == w + ("." + f + rest);
    TakeDigitsOfDigits(w, "." + f + rest);
    assert s[|w| + 1..] == f + rest;
    TakeDigitsOfDigits(f, rest);
  }

  /** Whole digits with no point, then `rest`. */
  lemma ShapeWithoutPoint(w: string, rest: string)
    requires AllDigits(w) && |w| >= 1 && StopsLiteral(false, rest)
    ensures var s := Literal("", w, false, []) + rest;
            s[0] != '+' && s[0] != '-' && TakeDigits(s) == w && !(|w| < |s| && s[|w|] == '.')
  {
    var s := Literal("", w, false, []) + rest;
    assert s == w + rest;
    TakeDigitsOfDigits(w, rest);
    assert s[|w|..] == rest;
  }

  /** Digits, an optional point and fraction digits, then text that does not continue them, scan to their value. */
  lemma ScanUnsigned(w: string, dot: bool, f: string, rest: string)
    requires IsLiteral("", w, dot, f) && StopsLiteral(dot, rest)
    ensures ScansTo(Literal("", w, dot, f) + rest, LiteralValue("", w, f), |Literal("", w, dot, f)|)
  {
    if dot {
      ShapeWithPoint(w, f, rest);
      ScanWithPoint(Literal("", w, dot, f) + rest, w, f);
    } else {
      ShapeWithoutPoint(w, rest);
      ScanWithoutPoint(Literal("", w, dot, f) + rest, w);
    }
  }

  /** A sign in front of unsigned text negates ('-') or keeps ('+') the value it scans to and adds one to the length. */
  lemma ScanSigned(c: char, body: string, value: real, length: nat)
    requires c == '+' || c == '-'
    requires body != [] && body[0] != '+' && body[0] != '-' && ScansTo(body, value, length)
    ensures ScansTo([c] + body, if c == '-' then -value else value, length + 1)
  {
    assert ([c] + body)[1..] == body;
  }

  /** A literal followed by text that does not continue it is scanned whole, to its value. */
  lemma ScanLiteral(sign: string, w: string, dot: bool, f: string, rest: string)
    requires IsLiteral(sign, w, dot, f) && StopsLiteral(dot, rest)
    ensures ScansTo(Literal(sign, w, dot, f) + rest, LiteralValue(sign, w, f), |Literal(sign, w, dot, f)|)
  {
    var body := Literal("", w, dot, f) + rest;
    ScanUnsigned(w, dot, f, rest);
    if sign != [] {
      LiteralSign(sign, w, dot, f, rest);
      assert body[0] == (if w != [] then w[0] else '.');
      ScanSigned(sign[0], body, LiteralValue("", w, f), |Literal("", w, dot, f)|);
    } else {
      assert Literal(sign, w, dot, f) + rest == body;
    }
  }

  lemma LiteralSign(sign: string, w: string, dot: bool, f: string, rest: string)
    requires |sign| == 1
    ensures Literal(sign, w, dot, f) + rest == [sign[0]] + (Literal("", w, dot, f) + rest)
  {
    assert sign == [sign[0]];
  }

  /** The first and last characters of a literal are not white space. */
  lemma LiteralTrimmed(sign: string, w: string, dot: bool, f: string)
    requires IsLiteral(sign, w, dot, f)
    ensures Trimmed(Literal(sign, w, dot, f))
  {
    var s := Literal(sign, w, dot, f);
    var p: string := if dot then "." else "";
    assert s == sign + w + p + f;
    if sign == [] && w != [] {
      DigitIsNotSpace(s[0]);
    }
    if f != [] {
      assert s[|s| - 1] == f[|f| - 1];
      DigitIsNotSpace(f[|f| - 1]);
    } else if !dot {
      assert s[|s| - 1] == w[|w| - 1];
      DigitIsNotSpace(w[|w| - 1]);
    }
  }

  /** `parseFloat` reads a literal's value, whatever follows that does not continue it. */
  lemma ParseFloatLiteral(sign: string, w: string, dot: bool, f: string, rest: string)
    requires IsLiteral(sign, w, dot, f) && StopsLiteral(dot, rest)
    ensures ParseFloat(Literal(sign, w, dot, f) + rest) == Some(LiteralValue(sign, w, f))
  {
    var lit := Literal(sign, w, dot, f);
    LiteralTrimmed(sign, w, dot, f);
    assert (lit + rest)[0] == lit[0];
    assert TrimStart(lit + rest) == lit + rest;
    ScanLiteral(sign, w, dot, f, rest);
  }

  /** `Number` of a literal, with white space around it, is its value. */
  lemma ToNumberLiteral(sign: string, w: string, dot: bool, f: string)
    requires IsLiteral(sign, w, dot, f)
    ensures ToNumber(Literal(sign, w, dot, f)) == Some(LiteralValue(sign, w, f))
  {
    var lit := Literal(sign, w, dot, f);
    LiteralTrimmed(sign, w, dot, f);
    TrimOfTrimmed(lit);
    ScanLiteral(sign, w, dot, f, []);
    assert lit + [] == lit;
  }

  /** Text that starts like a decimal literal: an optional sign, then a digit, or a point and a digit. */
  predicate StartsLikeNumber(t: string)
  {
    var u := if |t| > 0 && (t[0] == '+' || t[0] == '-') then t[1..] else t;
    (|u| > 0 && IsDigit(u[0])) || (|u| > 1 && u[0] == '.' && IsDigit(u[1]))
  }

  /** Nothing is scanned exactly when the text does not start like a number. */
  lemma ScanDecimalNone(t: string)
    ensures ScanDecimal(t).None? <==> !StartsLikeNumber(t)
  {
    var rest := if |t| > 0 && (t[0] == '+' || t[0] == '-') then t[1..] else t;
    var ip := TakeDigits(rest);
    if |ip| > 0 {
      assert rest[0] == ip[0];
    } else if |rest| > 1 && rest[0] == '.' {
      var fp := TakeDigits(rest[1..]);
      if |fp| > 0 {
        assert rest[1] == fp[0];
      }
    }
  }

  /** `parseFloat` is NaN exactly when the text, past its leading white space, does not start like a number. */
  lemma ParseFloatNaN(s: string)
    ensures ParseFloat(s) == None <==> !StartsLikeNumber(TrimStart(s))
  {
    ScanDecimalNone(TrimStart(s));
  }

  /** Text that does not start with a sign, a digit or a point is not a number to `parseFloat`. */
  lemma ParseFloatRejects(s: string)
    requires var t := TrimStart(s); t != [] && !IsDigit(t[0]) && t[0] !in "+-."
    ensures ParseFloat(s) == None
  {
  }

  // ---------------------------------------------------------------------
  // Printing a number as `String(x)` does
  // ---------------------------------------------------------------------

  /** Up to `fuel` digits of a fraction in [0, 1), stopping when nothing is left. */
  function FractionDigits(f: real, fuel: nat): (s: string)
    requires 0.0 <= f < 1.0
    ensures AllDigits(s)
    decreases fuel
  {
    if f == 0.0 || fuel == 0 then []
    else
      var d := (f * 10.0).Floor;
      [Digit(d)] + FractionDigits(f * 10.0 - d as real, fuel - 1)
  }

  /** `String(x)` for a number with at most 20 fraction digits and no exponent form. */
  function NumToString(x: real): string
  {
    var a := if x < 0.0 then -x else x;
    var whole := a.Floor;
    var frac := a - whole as real;
    (if x < 0.0 then "-" else "") + IntStr(whole)
      + (if frac == 0.0 then "" else "." + FractionDigits(frac, 20))
  }

  /** A whole number prints as its digits. */
  lemma NumToStringWhole(n: nat)
    ensures NumToString(n as real) == IntStr(n)
  {
  }

  // ---------------------------------------------------------------------
  // Small sequence facts
  // ---------------------------------------------------------------------

  predicate StartsWith(s: string, p: string)
  {
    |p| <= |s| && s[..|p|] == p
  }

  predicate EndsWith(s: string, p: string)
  {
    |p| <= |s| && s[|s| - |p|..] == p
  }

  /** `s` contains `sub` starting at `at`. */
  predicate ContainsAt(s: string, sub: string, at: nat)
  {
    at + |sub| <= |s| && s[at..at + |sub|] == sub
  }

  predicate Contains(s: string, sub: string)
  {
    exists at: nat | at <= |s| :: ContainsAt(s, sub, at)
  }

  lemma ContainsMiddle(a: string, x: string, b: string)
    ensures ContainsAt(a + x + b, x, |a|) && Contains(a + x + b, x)
  {
    var s := a + x + b;
    assert s[|a|..|a| + |x|] == x;
    var at: nat := |a|;
    assert at <= |s| && ContainsAt(s, x, at);
  }

  /** The pieces written one after the other. */
  function Join(pieces: seq<string>): string
  {
    if pieces == [] then "" else pieces[0] + Join(pieces[1..])
  }

  lemma {:induction false} JoinAppend(a: seq<string>, b: seq<string>)
    ensures Join(a + b) == Join(a) + Join(b)
    decreases |a|
  {
    if a == [] {
      assert a + b == b;
    } else {
      assert (a + b)[1..] == a[1..] + b;
      JoinAppend(a[1..], b);
    }
  }

  lemma JoinSnoc(pieces: seq<string>, i: int)
    requires 0 <= i < |pieces|
    ensures Join(pieces[..i + 1]) == Join(pieces[..i]) + pieces[i]
  {
    JoinAppend(pieces[..i], [pieces[i]]);
    assert pieces[..i + 1] == pieces[..i] + [pieces[i]];
    assert Join([pieces[i]]) == pieces[i] + Join([]);
  }

  /** Each piece appears in the joined text, right after the pieces before it. */
  lemma JoinContains(pieces: seq<string>, i: int)
    requires 0 <= i < |pieces|
    ensures ContainsAt(Join(pieces), pieces[i], |Join(pieces[..i])|)
    ensures Contains(Join(pieces), pieces[i])
  {
    assert pieces == pieces[..i] + [pieces[i]] + pieces[i + 1..];
    JoinAppend(pieces[..i] + [pieces[i]], pieces[i + 1..]);
    JoinAppend(pieces[..i], [pieces[i]]);
    assert Join([pieces[i]]) == pieces[i] + Join([]);
    ContainsMiddle(Join(pieces[..i]), pieces[i], Join(pieces[i + 1..]));
  }

  lemma ConcatEnds(a: string, b: string)
    ensures StartsWith(a + b, a) && EndsWith(a + b, b)
  {
    assert (a + b)[..|a|] == a;
    assert (a + b)[|a + b| - |b|..] == b;
  }

  lemma JoinStarts(pieces: seq<string>)
    requires pieces != []
    ensures StartsWith(Join(pieces), pieces[0])
  {
    ConcatEnds(pieces[0], Join(pieces[1..]));
  }

  lemma JoinFinishes(pieces: seq<string>)
    requires pieces != []
    ensures EndsWith(Join(pieces), pieces[|pieces| - 1])
  {
    var n := |pieces|;
    JoinSnoc(pieces, n - 1);
    assert pieces[..n] == pieces;
    ConcatEnds(Join(pieces[..n - 1]), pieces[n - 1]);
  }

  /** The joined text starts with the first piece and ends with the last. */
  lemma JoinEnds(pieces: seq<string>)
    requires pieces != []
    ensures StartsWith(Join(pieces), pieces[0])
    ensures EndsWith(Join(pieces), pieces[|pieces| - 1])
  {
    JoinStarts(pieces);
    JoinFinishes(pieces);
  }

  /** An occurrence inside the middle of a text is an occurrence in the whole, shifted by the front. */
  lemma ContainsAtShift(front: string, middle: string, back: string, sub: string, at: nat)
    requires ContainsAt(middle, sub, at)
    ensures ContainsAt(front + middle + back, sub, |front| + at)
  {
    var s := front + middle + back;
    forall j | 0 <= j < |sub| ensures s[|front| + at + j] == sub[j] {
      assert s[|front| + at + j] == middle[at + j];
    }
    assert s[|front| + at..|front| + at + |sub|] == sub;
  }
}
