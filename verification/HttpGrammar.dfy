/** The headers the parsers accept, written as a grammar: exactly these, with exactly these meanings. */
module HttpGrammar {
  import opened Outcomes
  import opened CivilDate
  import opened HttpDate

  // ---- what a text is made of ----

  /** The 25 characters with the Unicode property White_Space. */
  const WHITE_SPACE: set<int> :=
    {0x9, 0xa, 0xb, 0xc, 0xd, 0x20, 0x85, 0xa0, 0x1680, 0x2000, 0x2001, 0x2002, 0x2003, 0x2004, 0x2005, 0x2006, 0x2007,
     0x2008, 0x2009, 0x200a, 0x2028, 0x2029, 0x202f, 0x205f, 0x3000}

  lemma {:induction false} WhiteExactly(c: char)
    ensures IsWhitespace(c) <==> c as int in WHITE_SPACE
  {
  }

  ghost predicate Blank(s: string) { forall k :: 0 <= k < |s| ==> s[k] as int in WHITE_SPACE }

  ghost predicate Bare(t: string) { t == "" || (t[0] as int !in WHITE_SPACE && t[|t| - 1] as int !in WHITE_SPACE) }

  /** `t` is `s` without the white space around it. */
  ghost predicate TrimsTo(s: string, t: string) {
    Bare(t) && exists a, b :: Blank(a) && Blank(b) && s == a + t + b
  }

  /** The pieces with a separator between each two. */
  ghost function Joined(pieces: seq<string>, c: char): string
    requires pieces != []
  {
    if |pieces| == 1 then pieces[0] else pieces[0] + [c] + Joined(pieces[1..], c)
  }

  /** `s` is `pieces` joined by `c`, which is in none of them. */
  ghost predicate IsJoined(s: string, pieces: seq<string>, c: char) {
    pieces != [] && s == Joined(pieces, c) && forall k :: 0 <= k < |pieces| ==> c !in pieces[k]
  }

  ghost predicate CommaAt(s: string, k: nat) { k + 1 < |s| && s[k] == ',' && s[k + 1] == ' ' }

  /** The first comma that a space follows stands at `k`. */
  ghost predicate CutsAt(s: string, k: nat) { CommaAt(s, k) && forall j :: 0 <= j < k ==> !CommaAt(s, j) }

  /** A number in digits, with or without a plus sign. */
  ghost predicate Reads(s: string, n: nat, max: nat) {
    n <= max && exists digits :: digits != "" && AllDigits(digits) && DecimalValue(digits) == n
                  && (s == digits || s == "+" + digits)
  }

  ghost predicate ReadsTime(s: string, hour: nat, minute: nat, second: nat) {
    exists h, m, t :: IsJoined(s, [h, m, t], ':') && Reads(h, hour, U32_MAX) && Reads(m, minute, U32_MAX)
         && Reads(t, second, U32_MAX)
  }

  datatype Fields = Fields(year: nat, month: nat, day: nat, hour: nat, minute: nat, second: nat)

  ghost predicate InRange(f: Fields) {
    && 1970 <= f.year <= 9999 && 1 <= f.month <= 12 && 1 <= f.day <= 31
    && f.hour <= 23 && f.minute <= 59 && f.second <= 60
  }

  /** Day, month name, year, time and zone. */
  ghost predicate ReadsFields(parts: seq<string>, f: Fields) {
    && |parts| == 5 && InRange(f)
    && Reads(parts[0], f.day, U32_MAX) && parts[1] == MONTH_NAMES[f.month - 1] && Reads(parts[2], f.year, U32_MAX)
    && ReadsTime(parts[3], f.hour, f.minute, f.second) && parts[4] == "GMT"
  }

  /** Seconds since 1970. A day past the end of its month counts on from the month's first. */
  ghost function Instant(f: Fields): int {
    (CountDays(Date(f.year, f.month, 1)) + f.day - 1) * 86_400 + f.hour * 3600 + f.minute * 60 + f.second
  }

  /** A date is its fields, one space apart. */
  ghost predicate ReadsDate(s: string, at: nat) {
    exists parts, f :: IsJoined(s, parts, ' ') && ReadsFields(parts, f) && at == Instant(f)
  }

  // ---- trimming ----

  lemma {:induction false} TrimStartShape(s: string) returns (a: string)
    ensures Blank(a) && s == a + TrimStart(s) && (TrimStart(s) == "" || TrimStart(s)[0] as int !in WHITE_SPACE)
  {
    hide IsWhitespace, WHITE_SPACE;
    a := "";
    if s != "" { WhiteExactly(s[0]); }
    if s != "" && IsWhitespace(s[0]) {
      a := TrimStartShape(s[1..]);
      a := [s[0]] + a;
    }
  }

  lemma {:induction false} TrimEndShape(s: string) returns (b: string)
    ensures Blank(b) && s == TrimEnd(s) + b && (TrimEnd(s) == "" || TrimEnd(s)[|TrimEnd(s)| - 1] as int !in WHITE_SPACE)
  {
    hide IsWhitespace, WHITE_SPACE;
    b := "";
    if s != "" { WhiteExactly(s[|s| - 1]); }
    if s != "" && IsWhitespace(s[|s| - 1]) {
      b := TrimEndShape(s[..|s| - 1]);
      b := b + [s[|s| - 1]];
    }
  }

  lemma {:induction false} TrimsStart(a: string, t: string)
    requires Blank(a)
    ensures TrimStart(a + t) == TrimStart(t)
  {
    hide IsWhitespace, WHITE_SPACE;
    if a != "" {
      WhiteExactly(a[0]);
      assert (a + t)[1..] == a[1..] + t;
      TrimsStart(a[1..], t);
    } else {
      assert a + t == t;
    }
  }

  lemma {:induction false} TrimsEnd(t: string, b: string)
    requires Blank(b)
    ensures TrimEnd(t + b) == TrimEnd(t)
  {
    hide IsWhitespace, WHITE_SPACE;
    if b != "" {
      WhiteExactly(b[|b| - 1]);
      assert (t + b)[..|t + b| - 1] == t + b[..|b| - 1];
      TrimsEnd(t, b[..|b| - 1]);
    } else {
      assert t + b == t;
    }
  }

  lemma {:induction false} TrimTrims(s: string)
    ensures TrimsTo(s, Trim(s))
  {
    hide WHITE_SPACE, TrimStart, TrimEnd, Blank;
    var a := TrimStartShape(s);
    var b := TrimEndShape(TrimStart(s));
    var r := Trim(s);
    assert s == a + r + b;
    if r != "" { assert r[0] == TrimStart(s)[0]; }
  }

  lemma {:induction false} BareStays(t: string)
    requires Bare(t)
    ensures TrimEnd(t) == t && forall d :: t != "" ==> TrimStart(t + d) == t + d
  {
    if t != "" {
      WhiteExactly(t[0]);
      WhiteExactly(t[|t| - 1]);
    }
    hide WHITE_SPACE, IsWhitespace;
  }

  lemma {:induction false} TrimOnly(c: string, t: string, d: string)
    requires Blank(c) && Bare(t) && Blank(d)
    ensures Trim(c + t + d) == t
  {
    hide WHITE_SPACE, Blank, Bare, TrimStart, TrimEnd;
    assert c + t + d == c + (t + d);
    TrimsStart(c, t + d);
    TrimsEnd(t, d);
    BareStays(t);
    if t == "" {
      assert t + d == d + "";
      TrimsStart(d, "");
      NothingTrimmed();
    }
  }

  lemma {:induction false} NothingTrimmed()
    ensures TrimStart("") == TrimEnd("") == ""
  {
  }

  /** Trimming takes off the white space on both sides and nothing else. */
  lemma {:induction false} TrimExactly(s: string, t: string)
    ensures t == Trim(s) <==> TrimsTo(s, t)
  {
    hide Trim, Blank, Bare;
    TrimTrims(s);
    if TrimsTo(s, t) {
      var c, d :| Blank(c) && Blank(d) && s == c + t + d;
      TrimOnly(c, t, d);
    }
  }

  // ---- splitting ----

  lemma {:induction false} SplitJoins(s: string, c: char)
    ensures IsJoined(s, Split(s, c), c)
    decreases |s|
  {
    if c in s {
      var k := FirstIndex(s, c);
      SplitJoins(s[k + 1..], c);
      var rest := Split(s[k + 1..], c);
      assert Split(s, c)[1..] == rest;
      assert s == s[..k] + [c] + s[k + 1..];
    }
  }

  lemma {:induction false} SplitAlone(s: string, c: char)
    requires c !in s
    ensures Split(s, c) == [s]
  {
  }

  lemma {:induction false} JoinSplits(pieces: seq<string>, c: char)
    requires pieces != [] && forall k :: 0 <= k < |pieces| ==> c !in pieces[k]
    ensures Split(Joined(pieces, c), c) == pieces
  {
    if |pieces| == 1 {
      SplitAlone(pieces[0], c);
      assert pieces == [pieces[0]];
    } else {
      SplitHead(pieces[0], c, Joined(pieces[1..], c));
      JoinSplits(pieces[1..], c);
      assert pieces == [pieces[0]] + pieces[1..];
    }
    hide Split;
  }

  /** Splitting is the inverse of joining. */
  lemma {:induction false} SplitExactly(s: string, pieces: seq<string>, c: char)
    ensures Split(s, c) == pieces <==> IsJoined(s, pieces, c)
  {
    SplitJoins(s, c);
    if IsJoined(s, pieces, c) { JoinSplits(pieces, c); }
  }

  lemma {:induction false} CutExactly(s: string)
    ensures match CutAtComma(s)
            case None => forall k :: !CommaAt(s, k)
            case Some((front, back)) => CutsAt(s, |front|) && s == front + ", " + back
  {
    if |s| >= 2 && s[..2] != ", " {
      CutExactly(s[1..]);
      assert s[..2] == [s[0], s[1]] && !CommaAt(s, 0);
      forall k: nat ensures CommaAt(s, k + 1) <==> CommaAt(s[1..], k) {}
      match CutAtComma(s[1..]) {
        case None =>
          forall k: nat ensures !CommaAt(s, k) {
            if k > 0 { assert CommaAt(s, k - 1 + 1) <==> CommaAt(s[1..], k - 1); }
          }
        case Some((front, back)) =>
          forall j | 0 <= j < |front| + 1 ensures !CommaAt(s, j) {
            if j > 0 { assert CommaAt(s, j - 1 + 1) <==> CommaAt(s[1..], j - 1); }
          }
      }
    }
  }

  // ---- numbers ----

  lemma {:induction false} NumberExactly(s: string, n: nat, max: nat)
    ensures ParseUnsigned(s, max) == Some(n) <==> Reads(s, n, max)
  {
    hide DecimalValue;
    var digits := if |s| > 1 && s[0] == '+' then s[1..] else s;
    assert s == digits || s == "+" + digits;
    if Reads(s, n, max) {
      var own :| own != "" && AllDigits(own) && DecimalValue(own) == n && (s == own || s == "+" + own);
      assert own == digits;
    }
  }

  lemma {:induction false} NoMinus(s: string, n: nat, max: nat)
    requires Reads(s, n, max)
    ensures s != "" && s[0] != '-'
  {
  }

  lemma {:induction false} YearExactly(s: string, n: nat)
    requires n <= U32_MAX
    ensures ParseSigned(s) == Some(n) && 0 < n ==> Reads(s, n, U32_MAX)
    ensures Reads(s, n, U32_MAX) ==> ParseSigned(s) == Some(n)
  {
    hide DecimalValue;
    NumberExactly(s, n, I64_RANGE - 1);
    if Reads(s, n, U32_MAX) { NoMinus(s, n, U32_MAX); }
    assert Reads(s, n, I64_RANGE - 1) <==> Reads(s, n, U32_MAX);
  }

  lemma {:induction false} MonthExactly(name: string, m: nat)
    ensures MonthNumber(name) == Some(m) <==> 1 <= m <= 12 && name == MONTH_NAMES[m - 1]
  {
    if 1 <= m <= 12 { MonthNameParses(m); }
  }

  // ---- dates ----

  lemma {:induction false} TimeExactly(s: string, hour: nat, minute: nat, second: nat)
    requires hour <= 23 && minute <= 59 && second <= 60
    ensures ParseTime(s) == Some((hour, minute, second)) <==> ReadsTime(s, hour, minute, second)
  {
    hide ParseUnsigned, Reads, IsJoined, Split;
    var hms := Split(s, ':');
    SplitExactly(s, hms, ':');
    if |hms| == 3 {
      NumberExactly(hms[0], hour, U32_MAX);
      NumberExactly(hms[1], minute, U32_MAX);
      NumberExactly(hms[2], second, U32_MAX);
      assert hms == [hms[0], hms[1], hms[2]];
    }
    forall h, m, t | IsJoined(s, [h, m, t], ':') ensures hms == [h, m, t] {
      SplitExactly(s, [h, m, t], ':');
    }
  }

  /** What the parser reads from the pieces. */
  ghost predicate Parses(parts: seq<string>, f: Fields) {
    && |parts| == 5 && parts[4] == "GMT" && InRange(f)
    && ParseUnsigned(parts[0], U32_MAX) == Some(f.day) && MonthNumber(parts[1]) == Some(f.month)
    && ParseSigned(parts[2]) == Some(f.year) && ParseTime(parts[3]) == Some((f.hour, f.minute, f.second))
  }

  lemma {:induction false} FieldsExactly(parts: seq<string>, f: Fields)
    ensures Parses(parts, f) <==> ReadsFields(parts, f)
  {
    hide ParseUnsigned, ParseSigned, ParseTime, MonthNumber, Reads, ReadsTime;
    if |parts| == 5 && InRange(f) {
      NumberExactly(parts[0], f.day, U32_MAX);
      MonthExactly(parts[1], f.month);
      YearExactly(parts[2], f.year);
      TimeExactly(parts[3], f.hour, f.minute, f.second);
    }
  }

  lemma {:induction false} ParsedInstant(s: string, f: Fields)
    requires Parses(Split(s, ' '), f)
    ensures Instant(f) >= 0 && ParseDateText(s) == Some(Instant(f))
  {
    hide Split, ParseUnsigned, ParseSigned, ParseTime, MonthNumber, CountDays;
    DaysCountSingly(f.year, f.month, 1, f.day);
    CountNonNegative(Date(f.year, f.month, 1));
  }

  lemma {:induction false} ParsedFields(s: string, at: nat) returns (f: Fields)
    requires ParseDateText(s) == Some(at)
    ensures Parses(Split(s, ' '), f)
  {
    hide Split, ParseUnsigned, ParseSigned, MonthNumber, CountDays;
    var parts := Split(s, ' ');
    var (hour, minute, second) := ParseTime(parts[3]).value;
    f := Fields(ParseSigned(parts[2]).value, MonthNumber(parts[1]).value, ParseUnsigned(parts[0], U32_MAX).value, hour,
                minute, second);
  }

  /** The date parser reads exactly the dates of the grammar. */
  lemma {:induction false} DateExactly(s: string, at: nat)
    ensures ParseDateText(s) == Some(at) <==> ReadsDate(s, at)
  {
    hide ParseDateText, Parses, ReadsFields, IsJoined, Split, Instant;
    var parts := Split(s, ' ');
    SplitExactly(s, parts, ' ');
    if ParseDateText(s) == Some(at) {
      var f := ParsedFields(s, at);
      FieldsExactly(parts, f);
      ParsedInstant(s, f);
    }
    forall own, f | IsJoined(s, own, ' ') && ReadsFields(own, f) && at == Instant(f)
      ensures ParseDateText(s) == Some(at)
    {
      SplitExactly(s, own, ' ');
      FieldsExactly(own, f);
      ParsedInstant(s, f);
    }
  }

  // ---- headers ----

  /** The header asks for this wait: by a number of seconds, or else by the date behind its first comma and space. */
  ghost predicate Asks(hdr: string, now: nat, maxSecs: nat, wait: nat) {
    exists t :: TrimsTo(hdr, t) && if IsNumber(t) then AsksBySeconds(t, maxSecs, wait)
                                   else AsksByDate(t, now, maxSecs, wait)
  }

  ghost predicate IsNumber(t: string) { exists n: nat :: Reads(t, n, U64_MAX) }

  ghost predicate AsksBySeconds(t: string, maxSecs: nat, wait: nat) {
    exists n: nat :: Reads(t, n, U64_MAX) && wait == Min(n, maxSecs) * NANOS
  }

  ghost predicate DateBehind(t: string, at: nat) { exists k: nat :: CutsAt(t, k) && ReadsDate(t[k + 2..], at) }

  ghost predicate AsksByDate(t: string, now: nat, maxSecs: nat, wait: nat) {
    exists at: nat :: DateBehind(t, at) && wait == Min(Max(at * NANOS - now, 0), maxSecs * NANOS)
  }

  lemma {:induction false} SecondsExactly(t: string, maxSecs: nat, wait: nat)
    ensures IsNumber(t) <==> ParseUnsigned(t, U64_MAX).Some?
    ensures IsNumber(t) ==> (AsksBySeconds(t, maxSecs, wait) <==>
                             wait == Min(ParseUnsigned(t, U64_MAX).value * NANOS, maxSecs * NANOS))
  {
    hide ParseUnsigned, Reads;
    forall n: nat ensures ParseUnsigned(t, U64_MAX) == Some(n) <==> Reads(t, n, U64_MAX) {
      NumberExactly(t, n, U64_MAX);
    }
  }

  lemma {:induction false} DateBehindExactly(t: string, at: nat)
    requires TrimsTo(t, t)
    ensures ParseHttpDate(t) == Some(at) <==> DateBehind(t, at)
  {
    hide ParseDateText, ReadsDate, TrimsTo, Trim, CutAtComma;
    TrimExactly(t, t);
    CutExactly(t);
    match CutAtComma(t)
    case None =>
    case Some((front, back)) =>
      DateExactly(back, at);
      assert (front + ", " + back)[|front| + 2..] == back;
      forall k: nat | CutsAt(t, k) ensures k == |front| {
        assert CommaAt(t, k) && CommaAt(t, |front|);
      }
  }

  lemma {:induction false} DateFormExactly(t: string, now: nat, maxSecs: nat, wait: nat)
    requires TrimsTo(t, t)
    ensures DateWait(ParseHttpDate(t), now, maxSecs) == Some(wait) <==> AsksByDate(t, now, maxSecs, wait)
  {
    hide ParseHttpDate, DateBehind, TrimsTo;
    forall at: nat ensures ParseHttpDate(t) == Some(at) <==> DateBehind(t, at) {
      DateBehindExactly(t, at);
    }
  }

  lemma {:induction false} TrimmedTwice(s: string)
    ensures TrimsTo(Trim(s), Trim(s))
  {
    TrimExactly(s, Trim(s));
    var t := Trim(s);
    assert Blank("") && t == "" + t + "";
  }

  /** Exactly these headers are understood, and exactly so; without a header there is no evidence. */
  lemma {:induction false} HeaderExactly(hdr: string, now: nat, maxSecs: nat, wait: nat)
    ensures ParseRetryAfter(None, now, maxSecs) == None
    ensures ParseRetryAfter(Some(hdr), now, maxSecs) == Some(wait) <==> Asks(hdr, now, maxSecs, wait)
  {
    hide ParseUnsigned, ParseHttpDate, DateWait, Trim, TrimsTo, IsNumber, AsksBySeconds, AsksByDate;
    var t := Trim(hdr);
    forall u ensures u == t <==> TrimsTo(hdr, u) {
      TrimExactly(hdr, u);
    }
    TrimmedTwice(hdr);
    SecondsExactly(t, maxSecs, wait);
    DateFormExactly(t, now, maxSecs, wait);
  }
}
