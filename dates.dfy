/**
 * Calendar dates and the two date texts the monitor reads and writes:
 * the update marker "%Y-%m-%d %H:%M:%S" and the price date "%Y-%m-%d",
 * parsed the way Python's `datetime.strptime` parses them, and the
 * "%d %b %Y" rendering with its leading zero stripped.
 */
module Dates {
  import opened Wrappers

  datatype Ymd = Ymd(year: int, month: int, day: int)

  predicate IsLeapYear(y: int) {
    y % 4 == 0 && (y % 100 != 0 || y % 400 == 0)
  }

  function DaysInMonth(y: int, m: int): int
    requires 1 <= m <= 12
  {
    if m == 2 then (if IsLeapYear(y) then 29 else 28)
    else if m == 4 || m == 6 || m == 9 || m == 11 then 30
    else 31
  }

  /** A date that Python's `date` type accepts (years 1 through 9999). */
  predicate IsValidYmd(d: Ymd) {
    1 <= d.year <= 9999 && 1 <= d.month <= 12 && 1 <= d.day <= DaysInMonth(d.year, d.month)
  }

  type Date = d: Ymd | IsValidYmd(d) witness Ymd(1, 1, 1)

  // ---------------------------------------------------------------------
  // Digits
  // ---------------------------------------------------------------------

  predicate IsDigit(c: char) { '0' <= c <= '9' }

  predicate AllDigits(s: string) {
    forall i | 0 <= i < |s| :: IsDigit(s[i])
  }

  /** The whitespace characters a `\s` in a regular expression matches, ASCII part. */
  predicate IsSpace(c: char) {
    var k := c as int;
    k == 32 || 9 <= k <= 13 || 28 <= k <= 31
  }

  function DigitValue(c: char): nat
    requires IsDigit(c)
  {
    c as int - '0' as int
  }

  function DigitChar(n: nat): (c: char)
    requires n < 10
    ensures IsDigit(c) && DigitValue(c) == n
  {
    (n + '0' as int) as char
  }

  /** The number a string of decimal digits denotes. */
  function DigitsValue(s: string): nat
    requires AllDigits(s)
    decreases |s|
  {
    if s == [] then 0 else 10 * DigitsValue(s[..|s| - 1]) + DigitValue(s[|s| - 1])
  }

  /** Decimal rendering without padding. */
  function NatToString(n: nat): (r: string)
    ensures 1 <= |r| && AllDigits(r) && DigitsValue(r) == n
    ensures r[0] == '0' ==> n == 0
    decreases n
  {
    if n < 10 then [DigitChar(n)]
    else
      var prefix := NatToString(n / 10);
      var r := prefix + [DigitChar(n % 10)];
      assert r[..|r| - 1] == prefix;
      r
  }

  /** Two-digit zero-padded rendering (`%m`, `%d`, `%H`, `%M`, `%S` in strftime). */
  function Pad2(n: nat): (r: string)
    requires n < 100
    ensures |r| == 2 && AllDigits(r) && DigitsValue(r) == n
  {
    var r := [DigitChar(n / 10), DigitChar(n % 10)];
    assert r[..1] == [DigitChar(n / 10)];
    assert [DigitChar(n / 10)][..0] == [];
    assert DigitsValue(r[..1]) == n / 10;
    r
  }

  /** Four-digit zero-padded rendering (`%Y`). */
  function Pad4(n: nat): (r: string)
    requires n < 10000
    ensures |r| == 4 && AllDigits(r) && DigitsValue(r) == n
  {
    var hi := Pad2(n / 100);
    var r := hi + Pad2(n % 100);
    assert r[..3] == hi + [r[2]];
    assert r[..3][..2] == hi;
    r
  }

  /** Length of the run of digits that starts `s`. */
  function DigitRun(s: string): (k: nat)
    ensures k <= |s| && AllDigits(s[..k]) && (k < |s| ==> !IsDigit(s[k]))
  {
    if s == [] || !IsDigit(s[0]) then 0
    else
      var k := 1 + DigitRun(s[1..]);
      assert s[..k] == [s[0]] + s[1..][..k - 1];
      k
  }

  /** Length of the run of whitespace that starts `s`. */
  function SpaceRun(s: string): (k: nat)
    ensures k <= |s| && (forall i | 0 <= i < k :: IsSpace(s[i])) && (k < |s| ==> !IsSpace(s[k]))
  {
    if s == [] || !IsSpace(s[0]) then 0
    else
      var k := 1 + SpaceRun(s[1..]);
      assert forall i | 1 <= i < k :: s[i] == s[1..][i - 1];
      k
  }

  // ---------------------------------------------------------------------
  // strptime formats
  // ---------------------------------------------------------------------

  datatype Field = Year | Month | Day | Hour | Minute | Second

  /**
   * One element of a strptime format: a `%` directive, a literal separator,
   * or a space, which strptime turns into "one or more whitespace".
   */
  datatype Directive = Num(field: Field) | Sep(c: char) | Spaces

  /** "%Y-%m-%d" */
  const ISO_FORMAT: seq<Directive> := [Num(Year), Sep('-'), Num(Month), Sep('-'), Num(Day)]

  /** " %H:%M:%S" */
  const CLOCK_FORMAT: seq<Directive> := [Spaces, Num(Hour), Sep(':'), Num(Minute), Sep(':'), Num(Second)]

  /** "%Y-%m-%d %H:%M:%S" */
  const MARKER_FORMAT: seq<Directive> := ISO_FORMAT + CLOCK_FORMAT

  /** The fields a format reads, in order. */
  function Fields(fmt: seq<Directive>): seq<Field>
    decreases |fmt|
  {
    if fmt == [] then []
    else (if fmt[0].Num? then [fmt[0].field] else []) + Fields(fmt[1..])
  }

  /**
   * The values each directive's pattern admits: `%Y` is any four digits,
   * `%S` admits the leap seconds 60 and 61.
   */
  predicate InRange(f: Field, v: nat) {
    match f
    case Year => v < 10000
    case Month => 1 <= v <= 12
    case Day => 1 <= v <= 31
    case Hour => v <= 23
    case Minute => v <= 59
    case Second => v <= 61
  }

  /** `vals` gives one in-range value for each field of `fmt`. */
  predicate Fits(fmt: seq<Directive>, vals: seq<nat>) {
    |vals| == |Fields(fmt)| && forall i | 0 <= i < |vals| :: InRange(Fields(fmt)[i], vals[i])
  }

  /**
   * The text a directive's pattern accepts. `%Y` is exactly four digits;
   * the others one or two digits in range (a leading zero optional), and
   * `%d` also " 1" to " 9".
   */
  predicate FieldText(f: Field, t: string) {
    if f == Year then |t| == 4 && AllDigits(t)
    else if f == Day && |t| == 2 && t[0] == ' ' then '1' <= t[1] <= '9'
    else 1 <= |t| <= 2 && AllDigits(t) && InRange(f, DigitsValue(t))
  }

  function Pow10(n: nat): nat {
    if n == 0 then 1 else 10 * Pow10(n - 1)
  }

  lemma {:induction false} DigitsValueBound(t: string)
    requires AllDigits(t)
    ensures DigitsValue(t) < Pow10(|t|)
    decreases |t|
  {
    if t != [] {
      DigitsValueBound(t[..|t| - 1]);
    }
  }

  function FieldValue(f: Field, t: string): (v: nat)
    requires FieldText(f, t)
    ensures InRange(f, v)
  {
    if f == Year then DigitsValueBound(t); DigitsValue(t) else
    if f == Day && t[0] == ' ' then DigitValue(t[1]) else DigitsValue(t)
  }

  /**
   * How much of `s` a directive's pattern takes. What follows a field in
   * these formats is never a digit, so a field runs to the end of its digits.
   */
  function FieldLength(f: Field, s: string): nat {
    if f == Day && |s| > 0 && s[0] == ' ' then 2 else DigitRun(s)
  }

  /**
   * Match the whole of `s` against a format, as strptime does (no
   * "unconverted data" may remain), giving the value of each field.
   */
  function Scan(fmt: seq<Directive>, s: string): Option<seq<nat>>
    decreases |fmt|
  {
    if fmt == [] then (if s == [] then Some([]) else None)
    else
      match fmt[0]
      case Sep(c) =>
        if |s| > 0 && s[0] == c then Scan(fmt[1..], s[1..]) else None
      case Spaces =>
        var w := SpaceRun(s);
        if w > 0 then Scan(fmt[1..], s[w..]) else None
      case Num(f) =>
        var k := FieldLength(f, s);
        if k <= |s| && FieldText(f, s[..k]) then
          match Scan(fmt[1..], s[k..])
          case None => None
          case Some(vs) => Some([FieldValue(f, s[..k])] + vs)
        else None
  }

  /** Whatever Scan reads gives one in-range value for each field of the format. */
  lemma {:induction false} ScanFits(fmt: seq<Directive>, s: string)
    requires Scan(fmt, s).Some?
    ensures Fits(fmt, Scan(fmt, s).value)
    decreases |fmt|
  {
    if fmt != [] {
      var head := if fmt[0].Num? then [fmt[0].field] else [];
      assert Fields(fmt) == head + Fields(fmt[1..]);
      match fmt[0]
      case Sep(c) => ScanFits(fmt[1..], s[1..]);
      case Spaces => ScanFits(fmt[1..], s[SpaceRun(s)..]);
      case Num(f) =>
        var k := FieldLength(f, s);
        var vs := Scan(fmt[1..], s[k..]).value;
        ScanFits(fmt[1..], s[k..]);
        var r := Scan(fmt, s).value;
        assert r == [FieldValue(f, s[..k])] + vs;
        assert forall i | 1 <= i < |r| :: r[i] == vs[i - 1] && Fields(fmt)[i] == Fields(fmt[1..])[i - 1];
    }
  }

  function MakeDate(y: int, m: int, d: int): Option<Date> {
    if IsValidYmd(Ymd(y, m, d)) then Some(Ymd(y, m, d)) else None
  }

  /**
   * The date of an update marker, as `datetime.strptime(s, "%Y-%m-%d %H:%M:%S")`
   * reads it; None where strptime raises: the text does not match, or the
   * date does not exist, or the seconds are a leap second, which datetime refuses.
   */
  function ParseMarkerDate(s: string): Option<Date> {
    match Scan(MARKER_FORMAT, s)
    case None => None
    case Some(v) =>
      ScanFits(MARKER_FORMAT, s);
      MarkerFields();
      if v[5] < 60 then MakeDate(v[0], v[1], v[2]) else None
  }

  /** `datetime.strptime(s, "%Y-%m-%d").date()`; None where strptime raises. */
  function ParseIsoDate(s: string): Option<Date> {
    match Scan(ISO_FORMAT, s)
    case None => None
    case Some(v) =>
      ScanFits(ISO_FORMAT, s);
      IsoFormatShape();
      MakeDate(v[0], v[1], v[2])
  }

  // ---------------------------------------------------------------------
  // Rendering
  // ---------------------------------------------------------------------

  /** `%b` in the C locale. */
  function MonthAbbrev(m: int): string
    requires 1 <= m <= 12
  {
    ["Jan", "Feb", "Mar", "Apr", "May", "Jun", "Jul", "Aug", "Sep", "Oct", "Nov", "Dec"][m - 1]
  }

  /** `str.lstrip("0")`. */
  function LStripZeros(s: string): (r: string)
    decreases |s|
  {
    if |s| > 0 && s[0] == '0' then LStripZeros(s[1..]) else s
  }

  /** `d.strftime("%d %b %Y").lstrip("0")`. */
  function PrettyText(d: Date): string {
    LStripZeros(Pad2(d.day) + " " + MonthAbbrev(d.month) + " " + Pad4(d.year))
  }

  /** `pretty_date_yyyy_mm_dd`: None where strptime raises. */
  function PrettyDate(s: string): Option<string> {
    match ParseIsoDate(s)
    case None => None
    case Some(d) => Some(PrettyText(d))
  }

  /** The canonical text of a field: `%Y` four digits, the others two. */
  function FieldString(f: Field, v: nat): string
    requires InRange(f, v)
  {
    if f == Year then Pad4(v) else Pad2(v)
  }

  /** strftime with a format: each field zero-padded, each space a single blank. */
  function Render(fmt: seq<Directive>, vals: seq<nat>): string
    requires Fits(fmt, vals)
    decreases |fmt|
  {
    if fmt == [] then []
    else
      assert Fields(fmt) == (if fmt[0].Num? then [fmt[0].field] else []) + Fields(fmt[1..]);
      match fmt[0]
      case Sep(c) => [c] + Render(fmt[1..], vals)
      case Spaces => " " + Render(fmt[1..], vals)
      case Num(f) => FieldString(f, vals[0]) + Render(fmt[1..], vals[1..])
  }

  /** "%Y-%m-%d" written out for any field values its pattern admits. */
  function IsoString(y: nat, m: nat, day: nat): string
    requires y < 10000 && 1 <= m <= 12 && 1 <= day <= 31
  {
    IsoFormatShape();
    Render(ISO_FORMAT, [y, m, day])
  }

  /** The canonical "%Y-%m-%d" text of a date. */
  function IsoText(d: Date): string {
    IsoString(d.year, d.month, d.day)
  }

  /** The values of the six fields of an update marker that its pattern admits. */
  predicate MarkerInRange(y: nat, m: nat, day: nat, h: nat, mi: nat, se: nat) {
    y < 10000 && 1 <= m <= 12 && 1 <= day <= 31 && h <= 23 && mi <= 59 && se <= 61
  }

  /** "%Y-%m-%d %H:%M:%S" written out for any field values its pattern admits. */
  function MarkerString(y: nat, m: nat, day: nat, h: nat, mi: nat, se: nat): string
    requires MarkerInRange(y, m, day, h, mi, se)
  {
    MarkerFields();
    Render(MARKER_FORMAT, [y, m, day, h, mi, se])
  }

  /** The canonical "%Y-%m-%d %H:%M:%S" text of an update marker. */
  function MarkerText(d: Date, h: nat, mi: nat, se: nat): string
    requires h < 24 && mi < 60 && se < 60
  {
    MarkerString(d.year, d.month, d.day, h, mi, se)
  }

  // ---------------------------------------------------------------------
  // Properties
  // ---------------------------------------------------------------------

  lemma {:induction false} DigitRunStops(t: string, rest: string)
    requires AllDigits(t) && (rest == [] || !IsDigit(rest[0]))
    ensures DigitRun(t + rest) == |t|
  {
    if t == [] {
      assert t + rest == rest;
    } else {
      assert (t + rest)[1..] == t[1..] + rest;
      DigitRunStops(t[1..], rest);
    }
  }

  /**
   * The formats strptime reads unambiguously here: separators are neither
   * digits nor whitespace, no two fields touch and no two spaces touch.
   */
  predicate WellSeparated(fmt: seq<Directive>) {
    && (forall i | 0 <= i < |fmt| :: fmt[i].Sep? ==> !IsDigit(fmt[i].c) && !IsSpace(fmt[i].c))
    && (forall i | 0 <= i < |fmt| - 1 :: fmt[i].Num? ==> !fmt[i + 1].Num?)
    && (forall i | 0 <= i < |fmt| - 1 :: fmt[i].Spaces? ==> !fmt[i + 1].Spaces?)
  }

  lemma WellSeparatedTail(fmt: seq<Directive>)
    requires fmt != [] && WellSeparated(fmt)
    ensures WellSeparated(fmt[1..])
  {
    assert forall i | 0 <= i < |fmt| - 1 :: fmt[1..][i] == fmt[i + 1];
  }

  lemma FitsTail(fmt: seq<Directive>, vals: seq<nat>)
    requires fmt != [] && Fits(fmt, vals)
    ensures fmt[0].Num? ==> |vals| > 0 && InRange(fmt[0].field, vals[0]) && Fits(fmt[1..], vals[1..])
    ensures !fmt[0].Num? ==> Fits(fmt[1..], vals)
  {
    var head := if fmt[0].Num? then [fmt[0].field] else [];
    assert Fields(fmt) == head + Fields(fmt[1..]);
    if fmt[0].Num? {
      assert Fields(fmt)[0] == fmt[0].field;
      assert forall i | 0 <= i < |vals| - 1 :: Fields(fmt[1..])[i] == Fields(fmt)[i + 1] && vals[1..][i] == vals[i + 1];
    }
  }

  /** The first character of a rendering tells which directive produced it. */
  lemma RenderHead(fmt: seq<Directive>, vals: seq<nat>)
    requires fmt != [] && Fits(fmt, vals)
    ensures |Render(fmt, vals)| > 0
    ensures fmt[0].Num? ==> IsDigit(Render(fmt, vals)[0])
    ensures fmt[0].Sep? ==> Render(fmt, vals)[0] == fmt[0].c
    ensures fmt[0].Spaces? ==> Render(fmt, vals)[0] == ' '
  {
    FitsTail(fmt, vals);
  }

  lemma ScanSep(fmt: seq<Directive>, vals: seq<nat>)
    requires fmt != [] && fmt[0].Sep? && Fits(fmt, vals)
    requires Fits(fmt[1..], vals) && Scan(fmt[1..], Render(fmt[1..], vals)) == Some(vals)
    ensures Scan(fmt, Render(fmt, vals)) == Some(vals)
  {
    var s := Render(fmt, vals);
    assert s == [fmt[0].c] + Render(fmt[1..], vals);
    assert s[1..] == Render(fmt[1..], vals);
  }

  lemma ScanSpaces(fmt: seq<Directive>, vals: seq<nat>)
    requires fmt != [] && fmt[0].Spaces? && WellSeparated(fmt) && Fits(fmt, vals)
    requires Fits(fmt[1..], vals) && Scan(fmt[1..], Render(fmt[1..], vals)) == Some(vals)
    ensures Scan(fmt, Render(fmt, vals)) == Some(vals)
  {
    var rest := Render(fmt[1..], vals);
    var s := Render(fmt, vals);
    assert s == " " + rest;
    if fmt[1..] != [] {
      RenderHead(fmt[1..], vals);
      assert fmt[1..][0] == fmt[1];
      assert !IsSpace(rest[0]);
    }
    assert s[1..] == rest;
    assert SpaceRun(s) == 1;
  }

  lemma ScanNum(fmt: seq<Directive>, vals: seq<nat>)
    requires fmt != [] && fmt[0].Num? && WellSeparated(fmt) && Fits(fmt, vals)
    requires |vals| > 0 && InRange(fmt[0].field, vals[0])
    requires Fits(fmt[1..], vals[1..]) && Scan(fmt[1..], Render(fmt[1..], vals[1..])) == Some(vals[1..])
    ensures Scan(fmt, Render(fmt, vals)) == Some(vals)
  {
    var f := fmt[0].field;
    var t := FieldString(f, vals[0]);
    var rest := Render(fmt[1..], vals[1..]);
    var s := Render(fmt, vals);
    assert s == t + rest;
    if fmt[1..] != [] {
      RenderHead(fmt[1..], vals[1..]);
      assert fmt[1..][0] == fmt[1];
    }
    DigitRunStops(t, rest);
    assert s[..|t|] == t && s[|t|..] == rest;
    assert FieldText(f, t) && FieldValue(f, t) == vals[0];
    assert [vals[0]] + vals[1..] == vals;
  }

  /**
   * strptime reads back what strftime wrote: scanning the rendering of
   * in-range values with the same format gives those values.
   */
  lemma {:induction false} ScanRender(fmt: seq<Directive>, vals: seq<nat>)
    requires WellSeparated(fmt) && Fits(fmt, vals)
    ensures Scan(fmt, Render(fmt, vals)) == Some(vals)
    decreases |fmt|
  {
    if fmt != [] {
      WellSeparatedTail(fmt);
      FitsTail(fmt, vals);
      if fmt[0].Num? {
        ScanRender(fmt[1..], vals[1..]);
        ScanNum(fmt, vals);
      } else {
        ScanRender(fmt[1..], vals);
        if fmt[0].Sep? {
          ScanSep(fmt, vals);
        } else {
          ScanSpaces(fmt, vals);
        }
      }
    }
  }

  lemma IsoFormatShape()
    ensures WellSeparated(ISO_FORMAT)
    ensures Fields(ISO_FORMAT) == [Year, Month, Day]
  {
  }

  lemma {:induction false} FieldsAppend(a: seq<Directive>, b: seq<Directive>)
    ensures Fields(a + b) == Fields(a) + Fields(b)
    decreases |a|
  {
    if a != [] {
      assert (a + b)[1..] == a[1..] + b;
      FieldsAppend(a[1..], b);
    } else {
      assert a + b == b;
    }
  }

  lemma MarkerFields()
    ensures Fields(MARKER_FORMAT) == [Year, Month, Day, Hour, Minute, Second]
  {
    IsoFormatShape();
    assert Fields(CLOCK_FORMAT) == [Hour, Minute, Second];
    FieldsAppend(ISO_FORMAT, CLOCK_FORMAT);
  }

  lemma MarkerSeparated()
    ensures WellSeparated(MARKER_FORMAT)
  {
    var f := MARKER_FORMAT;
    assert |f| == 11;
    assert forall i | 0 <= i < 5 :: f[i] == ISO_FORMAT[i];
    assert forall i | 5 <= i < 11 :: f[i] == CLOCK_FORMAT[i - 5];
    assert forall i | 0 <= i < |f| :: f[i].Sep? ==> f[i].c == '-' || f[i].c == ':';
  }

  /**
   * A text written in the "%Y-%m-%d" pattern parses exactly when it names a
   * date that exists, and then to that date.
   */
  lemma IsoReadsBack(y: nat, m: nat, day: nat)
    requires y < 10000 && 1 <= m <= 12 && 1 <= day <= 31
    ensures ParseIsoDate(IsoString(y, m, day)) == MakeDate(y, m, day)
  {
    IsoFormatShape();
    ScanRender(ISO_FORMAT, [y, m, day]);
  }

  /** A price date in canonical form parses back to itself. */
  lemma IsoDateRoundTrip(d: Date)
    ensures ParseIsoDate(IsoText(d)) == Some(d)
  {
    IsoReadsBack(d.year, d.month, d.day);
  }

  /** A marker's text scans back to the six values it was written from. */
  lemma MarkerScan(y: nat, m: nat, day: nat, h: nat, mi: nat, se: nat)
    requires MarkerInRange(y, m, day, h, mi, se)
    ensures Scan(MARKER_FORMAT, MarkerString(y, m, day, h, mi, se)) == Some([y, m, day, h, mi, se])
  {
    MarkerFields();
    MarkerSeparated();
    ScanRender(MARKER_FORMAT, [y, m, day, h, mi, se]);
  }

  /**
   * A text written in the marker pattern parses exactly when its date exists
   * and its seconds are not a leap second (which strptime's pattern admits
   * and datetime then refuses), and then to its date.
   */
  lemma MarkerReadsBack(y: nat, m: nat, day: nat, h: nat, mi: nat, se: nat)
    requires MarkerInRange(y, m, day, h, mi, se)
    ensures ParseMarkerDate(MarkerString(y, m, day, h, mi, se)) == (if se < 60 then MakeDate(y, m, day) else None)
  {
    MarkerScan(y, m, day, h, mi, se);
  }

  /**
   * The date of a well-formed update marker is the date written in it: the
   * `is_today` comparison of check_price sees exactly that date.
   */
  lemma MarkerDateRoundTrip(d: Date, h: nat, mi: nat, se: nat)
    requires h < 24 && mi < 60 && se < 60
    ensures ParseMarkerDate(MarkerText(d, h, mi, se)) == Some(d)
  {
    MarkerReadsBack(d.year, d.month, d.day, h, mi, se);
  }

  lemma NatToStringTwoDigits(n: nat)
    requires 10 <= n < 100
    ensures NatToString(n) == Pad2(n)
  {
    assert NatToString(n / 10) == [DigitChar(n / 10)];
  }

  /**
   * `pretty_date_yyyy_mm_dd` writes the day without a leading zero, the
   * month's English abbreviation and the four-digit year.
   */
  lemma PrettyTextShape(d: Date)
    ensures PrettyText(d) == NatToString(d.day) + " " + MonthAbbrev(d.month) + " " + Pad4(d.year)
  {
    var tail := " " + MonthAbbrev(d.month) + " " + Pad4(d.year);
    var s := Pad2(d.day) + tail;
    assert Pad2(d.day) + " " + MonthAbbrev(d.month) + " " + Pad4(d.year) == s;
    if d.day < 10 {
      assert s[0] == '0';
      assert s[1..] == [DigitChar(d.day)] + tail;
      assert LStripZeros(s[1..]) == s[1..];
    } else {
      NatToStringTwoDigits(d.day);
      assert s[0] != '0';
    }
  }

  /** A canonical price date renders as its day, month abbreviation and year. */
  lemma PrettyDateOfIso(d: Date)
    ensures PrettyDate(IsoText(d)) == Some(NatToString(d.day) + " " + MonthAbbrev(d.month) + " " + Pad4(d.year))
  {
    IsoDateRoundTrip(d);
    PrettyTextShape(d);
  }

  lemma IsoTextShape(y: nat, m: nat, day: nat)
    requires y < 10000 && 1 <= m <= 12 && 1 <= day <= 31
    ensures IsoString(y, m, day) == Pad4(y) + "-" + Pad2(m) + "-" + Pad2(day)
  {
    IsoFormatShape();
    var f := ISO_FORMAT;
    var v: seq<nat> := [y, m, day];
    FitsTail(f, v);
    FitsTail(f[1..], v[1..]);
    FitsTail(f[2..], v[1..]);
    FitsTail(f[3..], v[2..]);
    FitsTail(f[4..], v[2..]);
    assert f[5..] == [];
    assert Render(f[4..], v[2..]) == Pad2(day);
    assert Render(f[3..], v[2..]) == "-" + Pad2(day);
    assert Render(f[2..], v[1..]) == Pad2(m) + "-" + Pad2(day);
    assert Render(f[1..], v[1..]) == "-" + Pad2(m) + "-" + Pad2(day);
  }

  lemma Year2025()
    ensures Pad4(2025) == "2025"
  {
    assert Pad2(20) == "20" && Pad2(25) == "25";
  }

  lemma JuneTenthIso(d: Date)
    requires d == Ymd(2025, 6, 10)
    ensures IsoText(d) == "2025-06-10"
  {
    IsoTextShape(d.year, d.month, d.day);
    Year2025();
    assert Pad2(6) == "06" && Pad2(10) == "10";
  }

  lemma JuneNinthIso(d: Date)
    requires d == Ymd(2025, 6, 9)
    ensures IsoText(d) == "2025-06-09"
  {
    IsoTextShape(d.year, d.month, d.day);
    Year2025();
    assert Pad2(6) == "06" && Pad2(9) == "09";
  }

  lemma JuneTenthPretty()
    ensures NatToString(10) + " " + MonthAbbrev(6) + " " + Pad4(2025) == "10 Jun 2025"
  {
    Year2025();
    NatToStringTwoDigits(10);
    assert Pad2(10) == "10";
  }

  lemma JuneNinthPretty()
    ensures NatToString(9) + " " + MonthAbbrev(6) + " " + Pad4(2025) == "9 Jun 2025"
  {
    Year2025();
  }

  lemma LeapDayText(y: nat, m: nat, day: nat)
    requires y == 2025 && m == 2 && day == 29
    ensures IsoString(y, m, day) == "2025-02-29"
  {
    IsoTextShape(y, m, day);
    Year2025();
    assert Pad2(2) == "02" && Pad2(29) == "29";
  }

  /** strptime refuses a date that does not exist: "2025-02-29" does not parse. */
  lemma NoLeapDayIn2025(s: string)
    requires s == "2025-02-29"
    ensures ParseIsoDate(s) == None
  {
    LeapDayText(2025, 2, 29);
    IsoReadsBack(2025, 2, 29);
  }

  /** The example of the monitor's acknowledgment: "2025-06-10" reads "10 Jun 2025". */
  lemma PrettyDateExample(s: string)
    requires s == "2025-06-10"
    ensures PrettyDate(s) == Some("10 Jun 2025")
  {
    JuneTenthIso(Ymd(2025, 6, 10));
    JuneTenthPretty();
    PrettyDateOfIso(Ymd(2025, 6, 10));
  }

  /** A single-digit day loses its leading zero: "2025-06-09" reads "9 Jun 2025". */
  lemma PrettyDateStripsZero(s: string)
    requires s == "2025-06-09"
    ensures PrettyDate(s) == Some("9 Jun 2025")
  {
    JuneNinthIso(Ymd(2025, 6, 9));
    JuneNinthPretty();
    PrettyDateOfIso(Ymd(2025, 6, 9));
  }
}
