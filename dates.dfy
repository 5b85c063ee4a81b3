/**
 * `datetime.strptime` for the directives the normalizers configure
 * (`%Y %m %d %H %M %S %f` and literal characters), as CPython's `_strptime`
 * implements it: each directive is a regular expression whose alternatives
 * are tried in order, literal characters match without regard to case, text
 * left over after the last directive is an error, and the fields must make a
 * real date and time. Also `strftime` for the same directives.
 */
module Dates {
  import opened PyValues

  datatype Directive = Year | Month | Day | Hour | Minute | Second | Fraction | Lit(c: char)

  type Format = seq<Directive>

  /** `"%Y-%m-%d"` */
  const IsoDate: Format := [Year, Lit('-'), Month, Lit('-'), Day]
  /** `"%m/%d/%Y"` */
  const UsDate: Format := [Month, Lit('/'), Day, Lit('/'), Year]
  /** `"%Y-%m-%dT%H:%M:%S"` */
  const IsoDateTime: Format := IsoDate + [Lit('T'), Hour, Lit(':'), Minute, Lit(':'), Second]
  /** `"%Y-%m-%dT%H:%M:%S.%f"` */
  const IsoDateTimeMicro: Format := IsoDateTime + [Lit('.'), Fraction]

  datatype DateTime = DateTime(year: nat, month: nat, day: nat, hour: nat, minute: nat, second: nat, micro: nat)

  /** The fields `strptime` assumes for directives a format leaves out. */
  const Epoch: DateTime := DateTime(1900, 1, 1, 0, 0, 0, 0)

  predicate IsLeap(y: nat) {
    y % 4 == 0 && (y % 100 != 0 || y % 400 == 0)
  }

  function DaysInMonth(y: nat, m: nat): nat
    requires 1 <= m <= 12
  {
    if m == 2 then (if IsLeap(y) then 29 else 28)
    else if m == 4 || m == 6 || m == 9 || m == 11 then 30
    else 31
  }

  /** What the `datetime` constructor accepts; anything else raises `ValueError`. */
  predicate Valid(t: DateTime) {
    1 <= t.year <= 9999 && 1 <= t.month <= 12 && 1 <= t.day <= DaysInMonth(t.year, t.month)
    && t.hour <= 23 && t.minute <= 59 && t.second <= 59 && t.micro <= 999999
  }

  function Dig(c: char): nat
    requires IsDigit(c)
  {
    c as int - '0' as int
  }

  predicate Between(s: string, i: nat, lo: char, hi: char) {
    i < |s| && lo <= s[i] <= hi
  }

  function Two(s: string): nat
    requires DigitsAt(s, 0, 2)
  {
    10 * Dig(s[0]) + Dig(s[1])
  }

  /** The number of leading digits of `s`, at most `max`. */
  function LeadingDigits(s: string, max: nat): (k: nat)
    ensures k <= max && DigitsAt(s, 0, k)
    ensures k < max ==> !Between(s, k, '0', '9')
  {
    if max == 0 || !Between(s, 0, '0', '9') then 0
    else
      var k := LeadingDigits(s[1..], max - 1);
      assert forall j | 1 <= j < 1 + k :: s[j] == s[1..][j - 1];
      1 + k
  }

  /**
   * One numeric directive of `_strptime` matched at the start of `s`: the
   * value and the text after it. The alternatives of each regular expression
   * are tried in order:
   *   %Y `\d\d\d\d`, %m `1[0-2]|0[1-9]|[1-9]`, %d `3[01]|[12]\d|0[1-9]|[1-9]| [1-9]`,
   *   %H `2[0-3]|[0-1]\d|\d`, %M `[0-5]\d|\d`, %S `6[0-1]|[0-5]\d|\d`,
   *   %f `[0-9]{1,6}` (greedy, scaled to microseconds).
   */
  /** A match of `k` characters read as `v`: the value and the text after it. */
  function Cut(v: nat, s: string, k: nat): (r: Option<(nat, string)>)
    requires 0 < k <= |s|
    ensures r == Some((v, s[k..])) && |r.value.1| < |s| && r.value.1 == s[|s| - |r.value.1|..]
  {
    Some((v, s[k..]))
  }

  function Lex(d: Directive, s: string): (r: Option<(nat, string)>)
    requires !d.Lit?
    ensures r.Some? ==> |r.value.1| < |s| && r.value.1 == s[|s| - |r.value.1|..]
  {
    match d
    case Year => LexYear(s)
    case Month => LexMonth(s)
    case Day => LexDay(s)
    case Hour => LexHour(s)
    case Minute => LexMinute(s)
    case Second => LexSecond(s)
    case Fraction => LexFraction(s)
  }

  /** `%Y` at the start of `s`. */
  function LexYear(s: string): (r: Option<(nat, string)>)
    ensures r.Some? ==> |r.value.1| < |s| && r.value.1 == s[|s| - |r.value.1|..]
  {
    if DigitsAt(s, 0, 4) then Cut(DecimalValue(s[..4]), s, 4) else None
  }

  /** `%m` at the start of `s`. */
  function LexMonth(s: string): (r: Option<(nat, string)>)
    ensures r.Some? ==> |r.value.1| < |s| && r.value.1 == s[|s| - |r.value.1|..]
  {
    if Between(s, 0, '1', '1') && Between(s, 1, '0', '2') then Cut(Two(s), s, 2)
    else if Between(s, 0, '0', '0') && Between(s, 1, '1', '9') then Cut(Two(s), s, 2)
    else if Between(s, 0, '1', '9') then Cut(Dig(s[0]), s, 1)
    else None
  }

  /** `%d` at the start of `s`. */
  function LexDay(s: string): (r: Option<(nat, string)>)
    ensures r.Some? ==> |r.value.1| < |s| && r.value.1 == s[|s| - |r.value.1|..]
  {
    if Between(s, 0, '3', '3') && Between(s, 1, '0', '1') then Cut(Two(s), s, 2)
    else if Between(s, 0, '1', '2') && Between(s, 1, '0', '9') then Cut(Two(s), s, 2)
    else if Between(s, 0, '0', '0') && Between(s, 1, '1', '9') then Cut(Two(s), s, 2)
    else if Between(s, 0, '1', '9') then Cut(Dig(s[0]), s, 1)
    else if Between(s, 0, ' ', ' ') && Between(s, 1, '1', '9') then Cut(Dig(s[1]), s, 2)
    else None
  }

  /** `%H` at the start of `s`. */
  function LexHour(s: string): (r: Option<(nat, string)>)
    ensures r.Some? ==> |r.value.1| < |s| && r.value.1 == s[|s| - |r.value.1|..]
  {
    if Between(s, 0, '2', '2') && Between(s, 1, '0', '3') then Cut(Two(s), s, 2)
    else if Between(s, 0, '0', '1') && Between(s, 1, '0', '9') then Cut(Two(s), s, 2)
    else if Between(s, 0, '0', '9') then Cut(Dig(s[0]), s, 1)
    else None
  }

  /** `%M` at the start of `s`. */
  function LexMinute(s: string): (r: Option<(nat, string)>)
    ensures r.Some? ==> |r.value.1| < |s| && r.value.1 == s[|s| - |r.value.1|..]
  {
    if Between(s, 0, '0', '5') && Between(s, 1, '0', '9') then Cut(Two(s), s, 2)
    else if Between(s, 0, '0', '9') then Cut(Dig(s[0]), s, 1)
    else None
  }

  /** `%S` at the start of `s`. */
  function LexSecond(s: string): (r: Option<(nat, string)>)
    ensures r.Some? ==> |r.value.1| < |s| && r.value.1 == s[|s| - |r.value.1|..]
  {
    if Between(s, 0, '6', '6') && Between(s, 1, '0', '1') then Cut(Two(s), s, 2)
    else if Between(s, 0, '0', '5') && Between(s, 1, '0', '9') then Cut(Two(s), s, 2)
    else if Between(s, 0, '0', '9') then Cut(Dig(s[0]), s, 1)
    else None
  }

  /** `%f` at the start of `s`. */
  function LexFraction(s: string): (r: Option<(nat, string)>)
    ensures r.Some? ==> |r.value.1| < |s| && r.value.1 == s[|s| - |r.value.1|..]
  {
    var k := LeadingDigits(s, 6);
    if k == 0 then None else Cut(DecimalValue(s[..k]) * Pow10(6 - k), s, k)
  }

  /** The field a numeric directive sets. */
  function Put(t: DateTime, d: Directive, v: nat): DateTime {
    match d
    case Year => t.(year := v)
    case Month => t.(month := v)
    case Day => t.(day := v)
    case Hour => t.(hour := v)
    case Minute => t.(minute := v)
    case Second => t.(second := v)
    case Fraction => t.(micro := v)
    case Lit(_) => t
  }

  /** The value a directive renders from `t`. */
  function Field(t: DateTime, d: Directive): nat {
    match d
    case Year => t.year
    case Month => t.month
    case Day => t.day
    case Hour => t.hour
    case Minute => t.minute
    case Second => t.second
    case Fraction => t.micro
    case Lit(_) => 0
  }

  /**
   * The format's regular expression matched from the start of `s`, then the
   * "unconverted data remains" check: the fields read, or None.
   */
  function Match(fmt: Format, s: string, acc: DateTime): Option<DateTime> {
    if fmt == [] then (if s == [] then Some(acc) else None)
    else match fmt[0]
      case Lit(c) =>
        if s != [] && LowerChar(s[0]) == LowerChar(c) then Match(fmt[1..], s[1..], acc) else None
      case _ =>
        match Lex(fmt[0], s)
        case None => None
        case Some(p) => Match(fmt[1..], p.1, Put(acc, fmt[0], p.0))
  }

  /** `datetime.strptime(s, fmt)`, None where it raises `ValueError`. */
  function Strptime(s: string, fmt: Format): (r: Option<DateTime>)
    ensures r.Some? ==> Valid(r.value)
  {
    match Match(fmt, s, Epoch)
    case Some(t) => if Valid(t) then Some(t) else None
    case None => None
  }

  /** `n` rendered in `w` decimal digits, zero-padded on the left. */
  function PadDigits(n: nat, w: nat): (r: string)
    ensures |r| == w && DigitsAt(r, 0, w)
  {
    if w == 0 then [] else PadDigits(n / 10, w - 1) + [DigitChar(n % 10)]
  }

  lemma {:induction false} PadDigitsValue(n: nat, w: nat)
    requires n < Pow10(w)
    ensures DecimalValue(PadDigits(n, w)) == n
  {
    if w > 0 {
      var r := PadDigits(n, w);
      PadDigitsValue(n / 10, w - 1);
      assert r[..|r| - 1] == PadDigits(n / 10, w - 1);
    }
  }

  lemma PadTwo(n: nat)
    requires n < 100
    ensures PadDigits(n, 2) == [DigitChar(n / 10), DigitChar(n % 10)]
    ensures Two(PadDigits(n, 2)) == n
  {
    var hi, lo := n / 10, n % 10;
    assert PadDigits(hi, 1) == [DigitChar(hi)] by {
      assert PadDigits(hi, 1) == PadDigits(hi / 10, 0) + [DigitChar(hi % 10)];
      assert hi % 10 == hi;
    }
    assert PadDigits(n, 2) == [DigitChar(hi), DigitChar(lo)] by {
      assert PadDigits(n, 2) == PadDigits(hi, 1) + [DigitChar(lo)];
    }
    assert Dig(DigitChar(hi)) == hi && Dig(DigitChar(lo)) == lo;
  }

  /** `strftime` for one directive: four digits for the year, six for microseconds, two otherwise. */
  function Render1(d: Directive, t: DateTime): string {
    match d
    case Lit(c) => [c]
    case Year => PadDigits(t.year, 4)
    case Fraction => PadDigits(t.micro, 6)
    case _ => PadDigits(Field(t, d), 2)
  }

  function Render(fmt: Format, t: DateTime): string {
    if fmt == [] then [] else Render1(fmt[0], t) + Render(fmt[1..], t)
  }

  /** `parsed.strftime("%Y-%m-%d")`. */
  function IsoText(t: DateTime): string {
    Render(IsoDate, t)
  }

  /** The fields a format's directives copy from `t` onto `acc`. */
  function Assign(fmt: Format, t: DateTime, acc: DateTime): DateTime {
    DateTime(
      if Year in fmt then t.year else acc.year,
      if Month in fmt then t.month else acc.month,
      if Day in fmt then t.day else acc.day,
      if Hour in fmt then t.hour else acc.hour,
      if Minute in fmt then t.minute else acc.minute,
      if Second in fmt then t.second else acc.second,
      if Fraction in fmt then t.micro else acc.micro)
  }

  lemma AssignStep(fmt: Format, t: DateTime, acc: DateTime)
    requires fmt != []
    ensures Assign(fmt, t, acc) == Assign(fmt[1..], t, if fmt[0].Lit? then acc else Put(acc, fmt[0], Field(t, fmt[0])))
  {
    assert fmt == [fmt[0]] + fmt[1..];
    forall x ensures x in fmt <==> x == fmt[0] || x in fmt[1..] {
    }
  }

  /** Valid fields are each rendered in a form their directive reads back. */
  lemma LexRendered(d: Directive, t: DateTime, rest: string)
    requires !d.Lit? && Valid(t)
    ensures Lex(d, Render1(d, t) + rest) == Some((Field(t, d), rest))
  {
    var s := Render1(d, t) + rest;
    match d
    case Year =>
      assert s[..4] == PadDigits(t.year, 4) && s[4..] == rest;
      PadDigitsValue(t.year, 4);
    case Fraction =>
      assert s[..6] == PadDigits(t.micro, 6) && s[6..] == rest;
      assert LeadingDigits(s, 6) == 6;
      PadDigitsValue(t.micro, 6);
    case Month => LexTwoRendered(Month, t.month, rest);
    case Day => LexTwoRendered(Day, t.day, rest);
    case Hour => LexTwoRendered(Hour, t.hour, rest);
    case Minute => LexTwoRendered(Minute, t.minute, rest);
    case Second => LexTwoRendered(Second, t.second, rest);
  }

  /** A two-digit field in its directive's range is read back whole. */
  lemma LexTwoRendered(d: Directive, v: nat, rest: string)
    requires d.Month? ==> 1 <= v <= 12
    requires d.Day? ==> 1 <= v <= 31
    requires d.Hour? ==> v <= 23
    requires (d.Minute? || d.Second?) ==> v <= 59
    requires d.Month? || d.Day? || d.Hour? || d.Minute? || d.Second?
    ensures Lex(d, PadDigits(v, 2) + rest) == Some((v, rest))
  {
    var s := PadDigits(v, 2) + rest;
    PadTwo(v);
    assert s[0] == DigitChar(v / 10) && s[1] == DigitChar(v % 10);
    assert s[2..] == rest && DigitsAt(s, 0, 2) && Two(s) == v;
  }

  /** Parsing a format's own rendering reads the rendered fields back. */
  lemma {:induction false} MatchRendered(fmt: Format, fmt2: Format, t: DateTime, rest: string, acc: DateTime)
    requires Valid(t)
    ensures Match(fmt + fmt2, Render(fmt, t) + rest, acc) == Match(fmt2, rest, Assign(fmt, t, acc))
  {
    if fmt == [] {
      assert fmt + fmt2 == fmt2 && Render(fmt, t) + rest == rest;
    } else {
      var d := fmt[0];
      assert (fmt + fmt2)[0] == d && (fmt + fmt2)[1..] == fmt[1..] + fmt2;
      var tail := Render(fmt[1..], t) + rest;
      assert Render(fmt, t) + rest == Render1(d, t) + tail;
      if d.Lit? {
        assert (Render1(d, t) + tail)[1..] == tail;
      } else {
        LexRendered(d, t, tail);
      }
      MatchRendered(fmt[1..], fmt2, t, rest, if d.Lit? then acc else Put(acc, d, Field(t, d)));
      AssignStep(fmt, t, acc);
    }
  }

  /** The date part of a date-time, time cleared. */
  function DateOf(t: DateTime): DateTime {
    DateTime(t.year, t.month, t.day, 0, 0, 0, 0)
  }

  lemma AssignDate(t: DateTime)
    ensures Assign(IsoDate, t, Epoch) == DateOf(t)
    ensures Assign(UsDate, t, Epoch) == DateOf(t)
  {
  }

  lemma AssignDateTime(t: DateTime)
    ensures Assign(IsoDateTime, t, Epoch) == t.(micro := 0)
    ensures Assign(IsoDateTimeMicro, t, Epoch) == t
  {
  }

  /** Rendering `t` in a format and parsing it with the same format gives `t` back, restricted to the format's fields. */
  lemma StrptimeRendered(fmt: Format, t: DateTime)
    requires Valid(t) && Valid(Assign(fmt, t, Epoch))
    ensures Strptime(Render(fmt, t), fmt) == Some(Assign(fmt, t, Epoch))
  {
    MatchRendered(fmt, [], t, [], Epoch);
    assert fmt + [] == fmt && Render(fmt, t) + [] == Render(fmt, t);
  }

  /** Text left over after a format's last directive makes it fail. */
  lemma StrptimeLeftover(fmt: Format, t: DateTime, rest: string)
    requires Valid(t) && rest != []
    ensures Strptime(Render(fmt, t) + rest, fmt) == None
  {
    MatchRendered(fmt, [], t, rest, Epoch);
    assert fmt + [] == fmt;
  }

  /** `%m/%d/%Y` rejects text that starts with four digits: the slash would have to be a digit. */
  lemma UsDateRejectsYearFirst(s: string)
    requires DigitsAt(s, 0, 4)
    ensures Strptime(s, UsDate) == None
  {
    var m := Lex(Month, s);
    assert UsDate[0] == Month && UsDate[1..][0] == Lit('/');
    if m.Some? {
      var rest := m.value.1;
      assert rest == s[1..] || rest == s[2..];
      assert rest[0] == s[1] || rest[0] == s[2];
      assert LowerChar(rest[0]) != LowerChar('/');
      var acc := Put(Epoch, Month, m.value.0);
      assert Match(UsDate[1..], rest, acc) == None;
      assert Match(UsDate, s, Epoch) == Match(UsDate[1..], rest, acc);
    }
  }

  lemma {:induction false} RenderSplit(f1: Format, f2: Format, t: DateTime)
    ensures Render(f1 + f2, t) == Render(f1, t) + Render(f2, t)
  {
    if f1 == [] {
      assert f1 + f2 == f2;
    } else {
      assert (f1 + f2)[0] == f1[0] && (f1 + f2)[1..] == f1[1..] + f2;
      RenderSplit(f1[1..], f2, t);
    }
  }

  // ------------------------------------------------------------ trying formats in turn

  /** The fields read by the first format of `formats` that parses `s`. */
  function FirstParse(formats: seq<Format>, s: string): (r: Option<DateTime>)
    ensures r.Some? ==> Valid(r.value)
  {
    if formats == [] then None
    else match Strptime(s, formats[0])
      case Some(t) => Some(t)
      case None => FirstParse(formats[1..], s)
  }

  lemma FirstParseSkip(formats: seq<Format>, s: string)
    requires formats != [] && Strptime(s, formats[0]) == None
    ensures FirstParse(formats, s) == FirstParse(formats[1..], s)
  {
  }

  lemma FirstParseHit(formats: seq<Format>, s: string)
    requires formats != [] && Strptime(s, formats[0]).Some?
    ensures FirstParse(formats, s) == Strptime(s, formats[0])
  {
  }

  /** The `YYYY-MM-DD` shape. */
  predicate IsIsoDate(s: string) {
    |s| == 10 && DigitsAt(s, 0, 4) && s[4] == '-' && DigitsAt(s, 5, 2) && s[7] == '-' && DigitsAt(s, 8, 2)
  }

  lemma IsoTextParts(t: DateTime)
    ensures IsoText(t) == PadDigits(t.year, 4) + "-" + PadDigits(t.month, 2) + "-" + PadDigits(t.day, 2)
  {
    var f := IsoDate;
    assert Render(f[4..], t) == PadDigits(t.day, 2) by {
      assert f[4..][1..] == [];
    }
    assert Render(f[3..], t) == "-" + Render(f[4..], t) by {
      assert f[3..][1..] == f[4..];
    }
    assert Render(f[2..], t) == PadDigits(t.month, 2) + Render(f[3..], t) by {
      assert f[2..][1..] == f[3..];
    }
    assert Render(f[1..], t) == "-" + Render(f[2..], t) by {
      assert f[1..][1..] == f[2..];
    }
  }

  lemma UsDateParts(t: DateTime)
    ensures Render(UsDate, t) == PadDigits(t.month, 2) + "/" + PadDigits(t.day, 2) + "/" + PadDigits(t.year, 4)
  {
    var f := UsDate;
    assert Render(f[4..], t) == PadDigits(t.year, 4) by {
      assert f[4..][1..] == [];
    }
    assert Render(f[3..], t) == "/" + Render(f[4..], t) by {
      assert f[3..][1..] == f[4..];
    }
    assert Render(f[2..], t) == PadDigits(t.day, 2) + Render(f[3..], t) by {
      assert f[2..][1..] == f[3..];
    }
    assert Render(f[1..], t) == "/" + Render(f[2..], t) by {
      assert f[1..][1..] == f[2..];
    }
  }

  /** `strftime("%Y-%m-%d")` of a valid date has the ISO shape and reads back as the same date. */
  lemma IsoTextRoundTrip(t: DateTime)
    requires Valid(t)
    ensures IsIsoDate(IsoText(t))
    ensures Strptime(IsoText(t), IsoDate) == Some(DateOf(t))
  {
    IsoTextParts(t);
    StrptimeRendered(IsoDate, t);
    AssignDate(t);
  }

  /** A plain ISO date is read by the first format, `%Y-%m-%d`. */
  lemma FirstParseIsoDate(formats: seq<Format>, t: DateTime)
    requires Valid(t) && formats != [] && formats[0] == IsoDate
    ensures FirstParse(formats, IsoText(t)) == Some(DateOf(t))
  {
    IsoTextRoundTrip(t);
    FirstParseHit(formats, IsoText(t));
  }

  /** `MM/DD/YYYY` fails `%Y-%m-%d` (no four leading digits) and is read by `%m/%d/%Y`. */
  lemma FirstParseUsDate(formats: seq<Format>, t: DateTime)
    requires Valid(t) && |formats| >= 2 && formats[0] == IsoDate && formats[1] == UsDate
    ensures FirstParse(formats, Render(UsDate, t)) == Some(DateOf(t))
  {
    var s := Render(UsDate, t);
    UsDateParts(t);
    assert s[2] == '/';
    IsoDateNeedsYear(s);
    FirstParseSkip(formats, s);
    AssignDate(t);
    StrptimeRendered(UsDate, t);
    FirstParseHit(formats[1..], s);
  }

  /** `%Y-%m-%d` fails on text that does not start with four digits. */
  lemma IsoDateNeedsYear(s: string)
    requires !DigitsAt(s, 0, 4)
    ensures Strptime(s, IsoDate) == None
  {
    assert Lex(Year, s) == None;
  }

  /** A timestamp fails `%Y-%m-%d` (text left over) and `%m/%d/%Y` (year first), and `%Y-%m-%dT%H:%M:%S` reads it. */
  lemma FirstParseDateTime(formats: seq<Format>, t: DateTime)
    requires Valid(t) && |formats| >= 3 && formats[..3] == [IsoDate, UsDate, IsoDateTime]
    ensures FirstParse(formats, Render(IsoDateTime, t)) == Some(t.(micro := 0))
  {
    var tail: Format := [Lit('T'), Hour, Lit(':'), Minute, Lit(':'), Second];
    var s := Render(IsoDateTime, t);
    RenderSplit(IsoDate, tail, t);
    FailsEarlyFormats(t, Render(tail, t));
    assert formats[0] == IsoDate && formats[1..][0] == UsDate && formats[1..][1..][0] == IsoDateTime;
    FirstParseSkip(formats, s);
    FirstParseSkip(formats[1..], s);
    AssignDateTime(t);
    StrptimeRendered(IsoDateTime, t);
    FirstParseHit(formats[1..][1..], s);
  }

  /** A timestamp with microseconds fails the first three formats. */
  lemma MicroFailsEarlyFormats(t: DateTime)
    requires Valid(t)
    ensures Strptime(Render(IsoDateTimeMicro, t), IsoDate) == None
    ensures Strptime(Render(IsoDateTimeMicro, t), UsDate) == None
    ensures Strptime(Render(IsoDateTimeMicro, t), IsoDateTime) == None
  {
    var rest := MicroSplit(t);
    FailsEarlyFormats(t, rest);
    StrptimeLeftover(IsoDateTime, t, Render([Lit('.'), Fraction], t));
  }

  /** A timestamp with microseconds is the ISO date followed by more text, and the plain timestamp followed by the fraction. */
  lemma MicroSplit(t: DateTime) returns (rest: string)
    ensures rest != [] && Render(IsoDateTimeMicro, t) == Render(IsoDate, t) + rest
    ensures Render(IsoDateTimeMicro, t) == Render(IsoDateTime, t) + Render([Lit('.'), Fraction], t)
  {
    var tail: Format := [Lit('T'), Hour, Lit(':'), Minute, Lit(':'), Second];
    var frac: Format := [Lit('.'), Fraction];
    assert IsoDateTime == IsoDate + tail && IsoDateTimeMicro == IsoDateTime + frac;
    RenderThree(IsoDate, tail, frac, t);
    RenderOpensWithLit(tail, t);
    rest := Render(tail, t) + Render(frac, t);
  }

  /** Rendering three formats in a row. */
  lemma RenderThree(a: Format, b: Format, c: Format, t: DateTime)
    ensures Render(a + b + c, t) == Render(a + b, t) + Render(c, t)
    ensures Render(a + b + c, t) == Render(a, t) + (Render(b, t) + Render(c, t))
  {
    var x, y, z := Render(a, t), Render(b, t), Render(c, t);
    assert Render(a + b + c, t) == Render(a + b, t) + z by {
      RenderSplit(a + b, c, t);
    }
    assert Render(a + b, t) == x + y by {
      RenderSplit(a, b, t);
    }
    assert (x + y) + z == x + (y + z);
  }

  /** A format that opens with a literal renders to some text. */
  lemma RenderOpensWithLit(b: Format, t: DateTime)
    requires b != [] && b[0].Lit?
    ensures |Render(b, t)| > 0
  {
    assert Render(b, t) == Render1(b[0], t) + Render(b[1..], t);
  }

  /** A timestamp with microseconds fails the first three formats and is read by the fourth. */
  lemma FirstParseDateTimeMicro(formats: seq<Format>, t: DateTime)
    requires Valid(t) && |formats| >= 4 && formats[..4] == [IsoDate, UsDate, IsoDateTime, IsoDateTimeMicro]
    ensures FirstParse(formats, Render(IsoDateTimeMicro, t)) == Some(t)
  {
    var s := Render(IsoDateTimeMicro, t);
    MicroFailsEarlyFormats(t);
    assert formats[0] == IsoDate && formats[1..][0] == UsDate && formats[1..][1..][0] == IsoDateTime;
    assert formats[1..][1..][1..][0] == IsoDateTimeMicro;
    FirstParseSkip(formats, s);
    FirstParseSkip(formats[1..], s);
    FirstParseSkip(formats[1..][1..], s);
    AssignDateTime(t);
    StrptimeRendered(IsoDateTimeMicro, t);
    FirstParseHit(formats[1..][1..][1..], s);
  }

  /** With only the first three formats, a timestamp with microseconds parses with none of them. */
  lemma NoFormatReadsMicro(formats: seq<Format>, t: DateTime)
    requires Valid(t) && formats == [IsoDate, UsDate, IsoDateTime]
    ensures FirstParse(formats, Render(IsoDateTimeMicro, t)) == None
  {
    var s := Render(IsoDateTimeMicro, t);
    MicroFailsEarlyFormats(t);
    FirstParseSkip(formats, s);
    FirstParseSkip(formats[1..], s);
    FirstParseSkip(formats[1..][1..], s);
    assert formats[1..][1..][1..] == [];
  }

  /** Text that starts with an ISO date and goes on fails both `%Y-%m-%d` and `%m/%d/%Y`. */
  lemma FailsEarlyFormats(t: DateTime, rest: string)
    requires Valid(t) && rest != []
    ensures Strptime(Render(IsoDate, t) + rest, IsoDate) == None
    ensures Strptime(Render(IsoDate, t) + rest, UsDate) == None
  {
    StrptimeLeftover(IsoDate, t, rest);
    var s := Render(IsoDate, t) + rest;
    IsoTextParts(t);
    assert DigitsAt(s, 0, 4);
    UsDateRejectsYearFirst(s);
  }

  // ------------------------------------------------------------ normalize_date

  /** The `for fmt in date_formats` loop: the first format that parses, tried in order. */
  method TryFormats(formats: seq<Format>, s: string) returns (r: Option<DateTime>)
    ensures r == FirstParse(formats, s)
  {
    for i := 0 to |formats|
      invariant FirstParse(formats, s) == FirstParse(formats[i..], s)
    {
      var parsed := Strptime(s, formats[i]);
      if parsed.Some? {
        FirstParseHit(formats[i..], s);
        return parsed;
      }
      FirstParseSkip(formats[i..], s);
      assert formats[i..][1..] == formats[i + 1..];
    }
    assert formats[|formats|..] == [];
    return None;
  }

  /**
   * `normalize_date` on one value: None and no warning for a blank value;
   * otherwise the first format that parses the stripped text, else the
   * `pd.to_datetime` fallback, as `YYYY-MM-DD`; a warning when both fail.
   */
  function DateStep(formats: seq<Format>, fallback: string -> Option<DateTime>, v: Value): (r: Parsed<string>)
    ensures r.value.Some? ==> IsIsoDate(r.value.value)
    ensures r.warned ==> r.value.None?
    ensures (r.value.None? && !r.warned) <==> IsBlank(v)
    ensures r.warned <==> !IsBlank(v) && FirstParse(formats, Strip(PyStr(v))) == None && fallback(Strip(PyStr(v))) == None
    ensures !IsBlank(v) && FirstParse(formats, Strip(PyStr(v))).Some? ==>
      r.value == Some(IsoText(FirstParse(formats, Strip(PyStr(v))).value))
    ensures !IsBlank(v) && FirstParse(formats, Strip(PyStr(v))) == None && fallback(Strip(PyStr(v))).Some? ==>
      r.value == Some(IsoText(fallback(Strip(PyStr(v))).value))
  {
    if IsBlank(v) then Parsed(None, false)
    else
      var s := Strip(PyStr(v));
      match FirstParse(formats, s)
      case Some(t) => IsoTextShape(t); Parsed(Some(IsoText(t)), false)
      case None =>
        match fallback(s)
        case Some(t) => IsoTextShape(t); Parsed(Some(IsoText(t)), false)
        case None => Parsed(None, true)
  }

  /** Every rendering has the ISO shape: `PadDigits` always gives the full width. */
  lemma IsoTextShape(t: DateTime)
    ensures IsIsoDate(IsoText(t))
  {
    IsoTextParts(t);
  }

  /** The ISO text reads only the date fields. */
  lemma IsoTextOfDate(t: DateTime)
    ensures IsoText(DateOf(t)) == IsoText(t) && IsoText(t.(micro := 0)) == IsoText(t)
  {
    IsoTextParts(t);
    IsoTextParts(DateOf(t));
    IsoTextParts(t.(micro := 0));
  }

  lemma Render1Digits(d: Directive, t: DateTime)
    requires !d.Lit?
    ensures Render1(d, t) != [] && DigitsAt(Render1(d, t), 0, |Render1(d, t)|)
  {
  }

  /** A format that starts and ends with a directive other than a literal renders with a digit at each end. */
  lemma RenderEnds(fmt: Format, t: DateTime)
    requires fmt != [] && !fmt[0].Lit? && !fmt[|fmt| - 1].Lit?
    ensures var r := Render(fmt, t); r != [] && IsDigit(r[0]) && IsDigit(r[|r| - 1])
  {
    var n := |fmt|;
    Render1Digits(fmt[0], t);
    Render1Digits(fmt[n - 1], t);
    RenderSplit(fmt[..n - 1], [fmt[n - 1]], t);
    assert fmt[..n - 1] + [fmt[n - 1]] == fmt;
    assert Render([fmt[n - 1]], t) == Render1(fmt[n - 1], t) by {
      assert [fmt[n - 1]][1..] == [];
    }
  }

  /** Text with a digit at each end is not blank and strips to itself. */
  lemma DigitEndsText(s: string)
    requires s != [] && IsDigit(s[0]) && IsDigit(s[|s| - 1])
    ensures Strip(PyStr(Str(s))) == s && !IsBlank(Str(s))
  {
    StripUnchanged(s);
  }

  /** Normalising an ISO date the normaliser produced gives it back unchanged. */
  lemma DateStepIsoFixed(formats: seq<Format>, fallback: string -> Option<DateTime>, t: DateTime)
    requires Valid(t) && formats != [] && formats[0] == IsoDate
    ensures DateStep(formats, fallback, Str(IsoText(t))) == Parsed(Some(IsoText(t)), false)
  {
    RenderEnds(IsoDate, t);
    DigitEndsText(IsoText(t));
    FirstParseIsoDate(formats, t);
    IsoTextOfDate(t);
  }

  /** `MM/DD/YYYY` normalises to the same date in ISO form. */
  lemma DateStepUsDate(formats: seq<Format>, fallback: string -> Option<DateTime>, t: DateTime)
    requires Valid(t) && |formats| >= 2 && formats[0] == IsoDate && formats[1] == UsDate
    ensures DateStep(formats, fallback, Str(Render(UsDate, t))) == Parsed(Some(IsoText(t)), false)
  {
    RenderEnds(UsDate, t);
    DigitEndsText(Render(UsDate, t));
    FirstParseUsDate(formats, t);
    IsoTextOfDate(t);
  }

  /** A `YYYY-MM-DDTHH:MM:SS` timestamp normalises to its date; the time is discarded. */
  lemma DateStepDateTime(formats: seq<Format>, fallback: string -> Option<DateTime>, t: DateTime)
    requires Valid(t) && |formats| >= 3 && formats[..3] == [IsoDate, UsDate, IsoDateTime]
    ensures DateStep(formats, fallback, Str(Render(IsoDateTime, t))) == Parsed(Some(IsoText(t)), false)
  {
    RenderEnds(IsoDateTime, t);
    DigitEndsText(Render(IsoDateTime, t));
    FirstParseDateTime(formats, t);
    IsoTextOfDate(t);
  }

  /** With the fourth format configured, a timestamp with microseconds normalises to its date. */
  lemma DateStepDateTimeMicro(formats: seq<Format>, fallback: string -> Option<DateTime>, t: DateTime)
    requires Valid(t) && |formats| >= 4 && formats[..4] == [IsoDate, UsDate, IsoDateTime, IsoDateTimeMicro]
    ensures DateStep(formats, fallback, Str(Render(IsoDateTimeMicro, t))) == Parsed(Some(IsoText(t)), false)
  {
    RenderEnds(IsoDateTimeMicro, t);
    DigitEndsText(Render(IsoDateTimeMicro, t));
    FirstParseDateTimeMicro(formats, t);
  }

  /** With only the first three formats, a timestamp with microseconds is left to the fallback parser. */
  lemma DateStepMicroFallsBack(formats: seq<Format>, fallback: string -> Option<DateTime>, t: DateTime)
    requires Valid(t) && formats == [IsoDate, UsDate, IsoDateTime]
    ensures var s := Render(IsoDateTimeMicro, t);
      DateStep(formats, fallback, Str(s)) == if fallback(s).Some? then Parsed(Some(IsoText(fallback(s).value)), false) else Parsed(None, true)
  {
    RenderEnds(IsoDateTimeMicro, t);
    DigitEndsText(Render(IsoDateTimeMicro, t));
    NoFormatReadsMicro(formats, t);
  }
}
