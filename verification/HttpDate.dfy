/**
 IMF-fixdate printing and parsing, and the two forms of a Retry-After header.
 Instants are seconds since 1970-01-01 unless a name says nanoseconds.
 */
module HttpDate {
  import opened Outcomes
  import opened CivilDate

  const I64_RANGE: nat := 0x8000_0000_0000_0000
  const U64_MAX: nat := 0xffff_ffff_ffff_ffff
  const U32_MAX: nat := 0xffff_ffff

  /** 10000-01-01T00:00:00Z, the first instant the parser's year check refuses. */
  const YEAR_10000: nat := 253_402_300_800

  // ---- strings as the standard library cuts them ----

  /** The Unicode White_Space characters. */
  predicate IsWhitespace(c: char) {
    var u := c as int;
    9 <= u <= 13 || u == 0x20 || u == 0x85 || u == 0xa0 || u == 0x1680 || 0x2000 <= u <= 0x200a
    || u == 0x2028 || u == 0x2029 || u == 0x202f || u == 0x205f || u == 0x3000
  }

  function TrimStart(s: string): string {
    if s != [] && IsWhitespace(s[0]) then TrimStart(s[1..]) else s
  }

  function TrimEnd(s: string): string {
    if s != [] && IsWhitespace(s[|s| - 1]) then TrimEnd(s[..|s| - 1]) else s
  }

  function Trim(s: string): string { TrimEnd(TrimStart(s)) }

  function FirstIndex(s: string, c: char): (i: nat)
    requires c in s
    ensures i < |s| && s[i] == c && c !in s[..i]
  {
    if s[0] == c then 0 else 1 + FirstIndex(s[1..], c)
  }

  /** The pieces of `s` between separators; never empty. */
  function Split(s: string, c: char): (pieces: seq<string>)
    ensures |pieces| > 0
    decreases |s|
  {
    if c !in s then [s]
    else [s[..FirstIndex(s, c)]] + Split(s[FirstIndex(s, c) + 1..], c)
  }

  /** Cut at the first comma that a space follows. */
  function CutAtComma(s: string): Option<(string, string)> {
    if |s| < 2 then None
    else if s[..2] == ", " then Some(("", s[2..]))
    else
      match CutAtComma(s[1..])
      case None => None
      case Some((front, back)) => Some(([s[0]] + front, back))
  }

  // ---- decimal numbers ----

  function DigitChar(d: nat): char
    requires d < 10
  {
    '0' + d as char
  }

  predicate AllDigits(s: string) {
    forall i :: 0 <= i < |s| ==> '0' <= s[i] <= '9'
  }

  function DecimalValue(s: string): nat
    requires AllDigits(s)
  {
    if s == [] then 0 else DecimalValue(s[..|s| - 1]) * 10 + (s[|s| - 1] as int - '0' as int)
  }

  function Decimal(n: nat): (s: string)
    ensures |s| > 0 && AllDigits(s)
  {
    if n < 10 then [DigitChar(n)] else Decimal(n / 10) + [DigitChar(n % 10)]
  }

  /** Left-padded with zeros to at least `width` characters. */
  function Padded(n: nat, width: nat): (s: string)
    ensures |s| > 0 && AllDigits(s)
  {
    var s := Decimal(n);
    seq(if |s| < width then width - |s| else 0, _ => '0') + s
  }

  /** `str::parse` of an unsigned integer: one leading plus sign is allowed. */
  function ParseUnsigned(s: string, max: nat): Option<nat> {
    var digits := if |s| > 1 && s[0] == '+' then s[1..] else s;
    if digits == [] || !AllDigits(digits) || DecimalValue(digits) > max then None
    else Some(DecimalValue(digits))
  }

  /** `str::parse` of a signed 64-bit integer. */
  function ParseSigned(s: string): Option<int> {
    if |s| > 1 && s[0] == '-' then
      if !AllDigits(s[1..]) || DecimalValue(s[1..]) > I64_RANGE then None
      else
        var n: int := DecimalValue(s[1..]);
        Some(-n)
    else ParseUnsigned(s, I64_RANGE - 1)
  }

  lemma {:induction false} DecimalRoundTrip(n: nat)
    ensures DecimalValue(Decimal(n)) == n
  {
    if n >= 10 {
      DecimalRoundTrip(n / 10);
      var s := Decimal(n);
      assert s[..|s| - 1] == Decimal(n / 10);
    } else {
      var s := Decimal(n);
      assert s[..|s| - 1] == [];
      assert s[0] == DigitChar(n);
    }
  }

  lemma {:induction false} LeadingZeros(k: nat, s: string)
    requires AllDigits(s)
    ensures AllDigits(seq(k, _ => '0') + s) && DecimalValue(seq(k, _ => '0') + s) == DecimalValue(s)
    decreases |s|, k
  {
    var z := seq(k, _ => '0');
    if s != [] {
      LeadingZeros(k, s[..|s| - 1]);
      assert (z + s)[..|z + s| - 1] == z + s[..|s| - 1];
    } else if k > 0 {
      LeadingZeros(k - 1, s);
      assert (z + s)[..k - 1] == seq(k - 1, _ => '0') + s;
    }
  }

  lemma {:induction false} PaddedParses(n: nat, width: nat, max: nat)
    ensures ParseUnsigned(Padded(n, width), max) == if n <= max then Some(n) else None
    ensures ParseSigned(Padded(n, width)) == if n < I64_RANGE then Some(n) else None
  {
    var s := Decimal(n);
    DecimalRoundTrip(n);
    LeadingZeros(if |s| < width then width - |s| else 0, s);
    assert Padded(n, width)[0] != '+' && Padded(n, width)[0] != '-';
  }

  // ---- printing ----

  const DAY_NAMES: seq<string> := ["Thu", "Fri", "Sat", "Sun", "Mon", "Tue", "Wed"]
  const MONTH_NAMES: seq<string> :=
    ["Jan", "Feb", "Mar", "Apr", "May", "Jun", "Jul", "Aug", "Sep", "Oct", "Nov", "Dec"]

  function MonthNumber(name: string): Option<nat> {
    if name == "Jan" then Some(1) else if name == "Feb" then Some(2) else if name == "Mar" then Some(3)
    else if name == "Apr" then Some(4) else if name == "May" then Some(5) else if name == "Jun" then Some(6)
    else if name == "Jul" then Some(7) else if name == "Aug" then Some(8) else if name == "Sep" then Some(9)
    else if name == "Oct" then Some(10) else if name == "Nov" then Some(11) else if name == "Dec" then Some(12)
    else None
  }

  function TimeText(rem: nat): string {
    Padded(rem / 3600, 2) + [':'] + (Padded(rem % 3600 / 60, 2) + [':'] + Padded(rem % 60, 2))
  }

  /** Everything after the day name: day, month, year, time and zone, one space apart. */
  function DateText(date: Date, rem: nat): string
    requires IsDate(date)
  {
    Padded(date.day, 2) + [' '] + (MONTH_NAMES[date.month - 1] + [' '] + (Padded(date.year, 4) + [' ']
      + (TimeText(rem) + [' '] + "GMT")))
  }

  function FormatHttpDate(at: nat): string {
    var date := CivilFromDays(at / 86_400);
    AlgorithmsCountDays(at / 86_400, EPOCH);
    DAY_NAMES[at / 86_400 % 7] + ", " + DateText(date, at % 86_400)
  }

  // ---- parsing ----

  function ParseTime(time: string): Option<(nat, nat, nat)> {
    var hms := Split(time, ':');
    if |hms| != 3 then None
    else
      match (ParseUnsigned(hms[0], U32_MAX), ParseUnsigned(hms[1], U32_MAX), ParseUnsigned(hms[2], U32_MAX))
      case (Some(hour), Some(minute), Some(second)) =>
        if hour > 23 || minute > 59 || second > 60 then None else Some((hour, minute, second))
      case _ => None
  }

  function ParseDateText(rest: string): Option<nat> {
    var parts := Split(rest, ' ');
    if |parts| != 5 || parts[4] != "GMT" then None
    else
      match (ParseUnsigned(parts[0], U32_MAX), MonthNumber(parts[1]), ParseSigned(parts[2]), ParseTime(parts[3]))
      case (Some(day), Some(month), Some(year), Some((hour, minute, second))) =>
        if day == 0 || day > 31 then None
        else
          (match DaysFromCivil(year, month, day)
           case None => None
           case Some(days) => Some(Max(days * 86_400 + hour * 3600 + minute * 60 + second, 0)))
      case _ => None
  }

  function ParseHttpDate(hdr: string): Option<nat> {
    match CutAtComma(Trim(hdr))
    case None => None
    case Some((_, rest)) => ParseDateText(rest)
  }

  // ---- the parser undoes the printer ----

  lemma {:induction false} FirstIndexAt(a: string, c: char, b: string)
    requires c !in a
    ensures FirstIndex(a + [c] + b, c) == |a|
  {
    var s := a + [c] + b;
    if a == [] {
      assert s[0] == c;
    } else {
      assert s[0] == a[0] && a[0] in a;
      assert s[1..] == a[1..] + [c] + b;
      FirstIndexAt(a[1..], c, b);
    }
  }

  lemma {:induction false} SplitHead(a: string, c: char, b: string)
    requires c !in a
    ensures Split(a + [c] + b, c) == [a] + Split(b, c)
  {
    var s := a + [c] + b;
    assert s[|a|] == c;
    FirstIndexAt(a, c, b);
    assert s[..|a|] == a;
    assert s[|a| + 1..] == b;
  }

  lemma {:induction false} CutHead(a: string, b: string)
    requires ',' !in a
    ensures CutAtComma(a + ", " + b) == Some((a, b))
  {
    var s := a + ", " + b;
    if a == [] {
      assert s[..2] == ", " && s[2..] == b;
    } else {
      CutHead(a[1..], b);
      assert s[0] == a[0] && a[0] in a;
      assert s[..2][0] == s[0] && s[..2] != ", ";
      assert s[1..] == a[1..] + ", " + b;
      assert [a[0]] + a[1..] == a;
    }
  }

  lemma {:induction false} SplitThree(a: string, b: string, d: string, c: char)
    requires c !in a && c !in b && c !in d
    ensures Split(a + [c] + (b + [c] + d), c) == [a, b, d]
  {
    SplitHead(a, c, b + [c] + d);
    SplitHead(b, c, d);
    assert Split(d, c) == [d];
    hide Split;
  }

  lemma {:induction false} SplitFive(a: string, b: string, d: string, e: string, f: string, c: char)
    requires c !in a && c !in b && c !in d && c !in e && c !in f
    ensures Split(a + [c] + (b + [c] + (d + [c] + (e + [c] + f))), c) == [a, b, d, e, f]
  {
    hide Split;
    var def := d + [c] + (e + [c] + f);
    var rest := b + [c] + def;
    SplitHead(a, c, rest);
    SplitHead(b, c, def);
    SplitThree(d, e, f, c);
  }

  lemma {:induction false} TimeParses(rem: nat) returns (hour: nat, minute: nat, second: nat)
    requires rem < 86_400
    ensures ParseTime(TimeText(rem)) == Some((hour, minute, second)) && hour * 3600 + minute * 60 + second == rem
  {
    hour, minute, second := rem / 3600, rem % 3600 / 60, rem % 60;
    assert rem % 60 == rem % 3600 % 60;
    hide ParseTime;
    TimeSplits(hour, minute, second);
  }

  lemma {:induction false} TimeSplits(hour: nat, minute: nat, second: nat)
    requires hour <= 23 && minute <= 59 && second <= 59
    ensures ParseTime(Padded(hour, 2) + [':'] + (Padded(minute, 2) + [':'] + Padded(second, 2)))
         == Some((hour, minute, second))
  {
    SplitThree(Padded(hour, 2), Padded(minute, 2), Padded(second, 2), ':');
    PaddedParses(hour, 2, U32_MAX);
    PaddedParses(minute, 2, U32_MAX);
    PaddedParses(second, 2, U32_MAX);
  }

  lemma {:induction false} TimeHasNoSpace(rem: nat)
    ensures ' ' !in TimeText(rem)
  {
  }

  lemma {:induction false} MonthNameParses(month: int)
    requires 1 <= month <= 12
    ensures MonthNumber(MONTH_NAMES[month - 1]) == Some(month)
    ensures ' ' !in MONTH_NAMES[month - 1]
  {
    if month == 1 {} else if month == 2 {} else if month == 3 {} else if month == 4 {} else if month == 5 {}
    else if month == 6 {} else if month == 7 {} else if month == 8 {} else if month == 9 {}
    else if month == 10 {} else if month == 11 {} else {}
  }

  lemma {:induction false} DateTextSplits(date: Date, rem: nat)
    requires IsDate(date) && rem < 86_400
    ensures Split(DateText(date, rem), ' ')
         == [Padded(date.day, 2), MONTH_NAMES[date.month - 1], Padded(date.year, 4), TimeText(rem), "GMT"]
  {
    TimeHasNoSpace(rem);
    MonthNameParses(date.month);
    SplitFive(Padded(date.day, 2), MONTH_NAMES[date.month - 1], Padded(date.year, 4), TimeText(rem), "GMT", ' ');
  }

  lemma {:induction false} DateTextParses(date: Date, rem: nat)
    requires IsDate(date) && rem < 86_400 && date.year < I64_RANGE
    ensures ParseDateText(DateText(date, rem))
         == if date.year <= 9999 then Some(CountDays(date) * 86_400 + rem) else None
  {
    hide ParseDateText, DateText, Split, CountDays, IsDate, ParseUnsigned, ParseSigned, MonthNumber, ParseTime;
    var hour, minute, second := FieldsRead(date, rem);
    FieldsParse(Split(DateText(date, rem), ' '), DateText(date, rem), date, hour, minute, second);
  }

  lemma {:induction false} FieldsRead(date: Date, rem: nat) returns (hour: nat, minute: nat, second: nat)
    requires IsDate(date) && rem < 86_400 && date.year < I64_RANGE
    ensures hour * 3600 + minute * 60 + second == rem
    ensures var parts := Split(DateText(date, rem), ' ');
      && |parts| == 5 && parts[4] == "GMT"
      && ParseUnsigned(parts[0], U32_MAX) == Some(date.day) && MonthNumber(parts[1]) == Some(date.month)
      && ParseSigned(parts[2]) == Some(date.year) && ParseTime(parts[3]) == Some((hour, minute, second))
  {
    hide ParseUnsigned, ParseSigned, MonthNumber, ParseTime, Split, DateText, Padded, TimeText;
    DateTextSplits(date, rem);
    MonthNameParses(date.month);
    hour, minute, second := TimeParses(rem);
    PaddedParses(date.day, 2, U32_MAX);
    PaddedParses(date.year, 4, U32_MAX);
  }

  /** The five fields of a printed date, read one by one. */
  lemma {:induction false} FieldsParse(parts: seq<string>, text: string, date: Date, hour: nat, minute: nat,
                                       second: nat)
    requires IsDate(date) && parts == Split(text, ' ') && |parts| == 5 && parts[4] == "GMT"
    requires ParseUnsigned(parts[0], U32_MAX) == Some(date.day) && MonthNumber(parts[1]) == Some(date.month)
    requires ParseSigned(parts[2]) == Some(date.year) && ParseTime(parts[3]) == Some((hour, minute, second))
    ensures ParseDateText(text) ==
      if date.year <= 9999 then Some(CountDays(date) * 86_400 + (hour * 3600 + minute * 60 + second)) else None
  {
    hide CountDays, Split, ParseUnsigned, ParseSigned, MonthNumber, ParseTime;
    CountNonNegative(date);
  }

  lemma {:induction false} NothingToTrim(s: string)
    requires s != [] && !IsWhitespace(s[0]) && !IsWhitespace(s[|s| - 1])
    ensures Trim(s) == s
  {
  }

  /** The year passes 9999 exactly at `YEAR_10000`. */
  lemma {:induction false} YearOfInstant(at: nat)
    ensures CivilFromDays(at / 86_400).year <= 9999 <==> at < YEAR_10000
    ensures CivilFromDays(at / 86_400).year <= at + 1970
  {
    var days := at / 86_400;
    var date, turn := CivilFromDays(days), Date(10000, 1, 1);
    TurnCounted();
    hide CountDays, CivilFromDays, NthDay;
    AlgorithmsCountDays(days, EPOCH);
    CountingReachesEveryDay(days);
    CountStrictlyIncreasing(date, turn);
    YearAtMost(days);
  }

  lemma {:induction false} TurnCounted()
    ensures CountDays(Date(10000, 1, 1)) == YEAR_10000 / 86_400
  {
  }

  lemma {:induction false} YearAtMost(n: nat)
    ensures NthDay(n).year <= n + 1970
  {
    if n > 0 {
      YearAtMost(n - 1);
    }
  }

  /** Every printed instant reads back as itself until the year needs a fifth digit, and no later one does. */
  lemma {:induction false} ParseUndoesFormat(at: nat)
    requires at < I64_RANGE - 1970
    ensures ParseHttpDate(FormatHttpDate(at)) == if at < YEAR_10000 then Some(at) else None
  {
    hide CountDays, CivilFromDays, NthDay, DateText, ParseDateText;
    var days, rem := at / 86_400, at % 86_400;
    var date := CivilFromDays(days);
    AlgorithmsCountDays(days, EPOCH);
    CountingReachesEveryDay(days);
    YearOfInstant(at);
    var name, text := DAY_NAMES[days % 7], DateText(date, rem);
    DayNameShape(days % 7);
    var hdr := FormatHttpDate(at);
    assert hdr == name + ", " + text;
    assert hdr[0] == name[0];
    EndsWithZone(date, rem);
    assert hdr[|hdr| - 1] == text[|text| - 1];
    NothingToTrim(hdr);
    CutHead(name, text);
    DateTextParses(date, rem);
  }

  lemma {:induction false} EndsWithZone(date: Date, rem: nat)
    requires IsDate(date)
    ensures var text := DateText(date, rem); |text| > 0 && text[|text| - 1] == 'T'
  {
  }

  lemma {:induction false} DayNameShape(k: nat)
    requires k < 7
    ensures |DAY_NAMES[k]| == 3 && ',' !in DAY_NAMES[k] && !IsWhitespace(DAY_NAMES[k][0])
  {
    if k == 0 {} else if k == 1 {} else if k == 2 {} else if k == 3 {} else if k == 4 {} else if k == 5 {} else {}
  }

  // ---- the Retry-After header ----

  const NANOS: nat := 1_000_000_000

  /** The wait a header asks for, in nanoseconds, given the clock in nanoseconds and the ceiling in seconds. */
  function ParseRetryAfter(hdr: Option<string>, now: nat, maxSecs: nat): Option<nat> {
    if hdr.None? then None
    else
      var t := Trim(hdr.value);
      match ParseUnsigned(t, U64_MAX)
      case Some(secs) => Some(Min(secs * NANOS, maxSecs * NANOS))
      case None => DateWait(ParseHttpDate(t), now, maxSecs)
  }

  function DateWait(at: Option<nat>, now: nat, maxSecs: nat): Option<nat> {
    match at
    case None => None
    case Some(t) => Some(Min(Max(t * NANOS - now, 0), maxSecs * NANOS))
  }

  lemma {:induction false} HeaderShape(at: nat)
    ensures var hdr := FormatHttpDate(at);
      |hdr| > 3 && !IsWhitespace(hdr[0]) && hdr[3] == ',' && hdr[|hdr| - 1] == 'T'
  {
    DayNameShape(at / 86_400 % 7);
    AlgorithmsCountDays(at / 86_400, EPOCH);
    EndsWithZone(CivilFromDays(at / 86_400), at % 86_400);
  }

  /** A date header asks for the time left until that date, never less than nothing and never past the ceiling. */
  lemma {:induction false} DateFormWaits(at: nat, now: nat, maxSecs: nat)
    requires at < YEAR_10000
    ensures ParseRetryAfter(Some(FormatHttpDate(at)), now, maxSecs)
         == Some(Min(Max(at * NANOS - now, 0), maxSecs * NANOS))
  {
    hide ParseRetryAfter, ParseUnsigned, Trim, ParseHttpDate, FormatHttpDate;
    HeaderShape(at);
    ParseUndoesFormat(at);
    var hdr := FormatHttpDate(at);
    NothingToTrim(hdr);
    NotANumber(hdr, 3);
    DateHeaderWaits(hdr, at, now, maxSecs);
  }

  lemma {:induction false} DateHeaderWaits(hdr: string, at: nat, now: nat, maxSecs: nat)
    requires Trim(hdr) == hdr && ParseUnsigned(hdr, U64_MAX) == None && ParseHttpDate(hdr) == Some(at)
    ensures ParseRetryAfter(Some(hdr), now, maxSecs) == Some(Min(Max(at * NANOS - now, 0), maxSecs * NANOS))
  {
    hide Trim, ParseUnsigned, ParseHttpDate;
  }

  lemma {:induction false} NotANumber(s: string, k: nat)
    requires 0 < k < |s| && !('0' <= s[k] <= '9')
    ensures ParseUnsigned(s, U64_MAX) == None
  {
    assert s[1..][k - 1] == s[k];
  }

  /** A plain number of seconds is honoured up to the ceiling; one beyond 64 bits is not evidence at all. */
  lemma {:induction false} SecondsFormWaits(n: nat, now: nat, maxSecs: nat)
    ensures ParseRetryAfter(Some(Decimal(n)), now, maxSecs)
         == if n <= U64_MAX then Some(Min(n * NANOS, maxSecs * NANOS)) else None
  {
    var s := Decimal(n);
    DecimalRoundTrip(n);
    NothingToTrim(s);
    assert s[0] != '+';
    NoCommaNoCut(s);
  }

  lemma {:induction false} NoCommaNoCut(s: string)
    requires ',' !in s
    ensures CutAtComma(s) == None
  {
    if |s| >= 2 {
      assert s[..2][0] == s[0];
      NoCommaNoCut(s[1..]);
    }
  }
}
