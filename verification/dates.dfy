/** `parse_date` (scrape.py:29-36): the stripped input is tried against five `strptime`
    formats in a fixed order and the first one that matches wins.

    Each format is a sequence of directives. A directive consumes a prefix of the input
    the way the regular expression CPython's `_strptime` builds for it does; the whole
    input must be consumed, and the collected fields must then pass the range checks of
    the `datetime` constructor. */
module Dates {
  import opened Common
  import opened Text
  import opened Seqs

  /** A naive `datetime` as `strptime` returns it. */
  datatype DateTime = DateTime(year: int, month: int, day: int, hour: int, minute: int, second: int)

  /** The fields `strptime` uses for directives a format does not mention: 1900-01-01 00:00:00. */
  const Unset := DateTime(1900, 1, 1, 0, 0, 0)

  /** Gregorian leap years. */
  predicate IsLeapYear(y: int) {
    y % 4 == 0 && (y % 100 != 0 || y % 400 == 0)
  }

  function DaysInMonth(y: int, m: int): (n: int)
    requires 1 <= m <= 12
    ensures 28 <= n <= 31
    ensures n == 31 <==> m in {1, 3, 5, 7, 8, 10, 12}
    ensures n == 30 <==> m in {4, 6, 9, 11}
    ensures m == 2 ==> (n == 29 <==> IsLeapYear(y))
  {
    if m == 2 then (if IsLeapYear(y) then 29 else 28)
    else if m in {4, 6, 9, 11} then 30
    else 31
  }

  /** The checks `datetime(year, month, day, hour, minute, second)` performs. */
  predicate ValidDateTime(d: DateTime) {
    && 1 <= d.year <= 9999
    && 1 <= d.month <= 12
    && 1 <= d.day <= DaysInMonth(d.year, d.month)
    && 0 <= d.hour <= 23
    && 0 <= d.minute <= 59
    && 0 <= d.second <= 59
  }

  predicate IsMidnight(d: DateTime) {
    d.hour == 0 && d.minute == 0 && d.second == 0
  }

  /** `strptime` directives used by the five formats; `Space` is what a blank in a format
      becomes (one or more whitespace characters). */
  datatype Directive =
    | Year        // %Y
    | Month       // %m
    | MonthAbbr   // %b
    | MonthName   // %B
    | Day         // %d
    | Hour        // %H
    | Minute      // %M
    | Second      // %S
    | Lit(c: char)
    | Space

  type Format = seq<Directive>

  const IsoDate: Format := [Year, Lit('-'), Month, Lit('-'), Day]                             // "%Y-%m-%d"
  const DottedDate: Format := [Day, Lit('.'), Month, Lit('.'), Year]                          // "%d.%m.%Y"
  const AbbrMonthDate: Format := [MonthAbbr, Space, Day, Lit(','), Space, Year]               // "%b %d, %Y"
  const FullMonthDate: Format := [MonthName, Space, Day, Lit(','), Space, Year]               // "%B %d, %Y"
  const IsoDateTime: Format :=                                                                // "%Y-%m-%d %H:%M:%S"
    [Year, Lit('-'), Month, Lit('-'), Day, Space, Hour, Lit(':'), Minute, Lit(':'), Second]

  /** The formats in the order `parse_date` tries them. */
  const Formats: seq<Format> := [IsoDate, DottedDate, AbbrMonthDate, FullMonthDate, IsoDateTime]

  const MonthAbbrs: seq<string> :=
    ["jan", "feb", "mar", "apr", "may", "jun", "jul", "aug", "sep", "oct", "nov", "dec"]
  const MonthNames: seq<string> :=
    ["january", "february", "march", "april", "may", "june", "july", "august",
     "september", "october", "november", "december"]

  /** A numeric directive: two digits whose value lies in `lo..hi`, otherwise a single digit
      of value at least `minSingle` (the alternatives `_strptime` lists, longest first). */
  function TwoOrOneDigits(s: string, lo: int, hi: int, minSingle: int): (r: Option<(int, string)>)
    ensures r.Some? ==> |r.value.1| < |s| && r.value.1 == s[|s| - |r.value.1|..]
    ensures r.Some? ==> forall i :: 0 <= i < |s| - |r.value.1| ==> IsDigit(s[i])
  {
    if |s| >= 2 && IsDigit(s[0]) && IsDigit(s[1]) && lo <= 10 * DigitValue(s[0]) + DigitValue(s[1]) <= hi then
      Some((10 * DigitValue(s[0]) + DigitValue(s[1]), s[2..]))
    else if |s| >= 1 && IsDigit(s[0]) && minSingle <= DigitValue(s[0]) then
      Some((DigitValue(s[0]), s[1..]))
    else
      None
  }

  /** The first month (1-based) whose lower-case name `s` starts with, ignoring case. */
  function MatchMonth(names: seq<string>, s: string, k: nat): (r: Option<(int, string)>)
    requires k <= |names|
    ensures r.Some? ==> k < r.value.0 <= |names|
                        && StartsWithIgnoringCase(s, names[r.value.0 - 1])
                        && r.value.1 == s[|names[r.value.0 - 1]|..]
    ensures r.Some? ==> forall j :: k <= j < r.value.0 - 1 ==> !StartsWithIgnoringCase(s, names[j])
    ensures r.None? ==> forall j :: k <= j < |names| ==> !StartsWithIgnoringCase(s, names[j])
    decreases |names| - k
  {
    if k == |names| then None
    else if StartsWithIgnoringCase(s, names[k]) then Some((k + 1, s[|names[k]|..]))
    else MatchMonth(names, s, k + 1)
  }

  /** What one directive consumes from the front of `s`: its value and the rest of `s`. */
  function Step(d: Directive, s: string): Option<(int, string)> {
    match d
    case Year =>
      if |s| >= 4 && IsDigit(s[0]) && IsDigit(s[1]) && IsDigit(s[2]) && IsDigit(s[3]) then
        Some((1000 * DigitValue(s[0]) + 100 * DigitValue(s[1]) + 10 * DigitValue(s[2]) + DigitValue(s[3]), s[4..]))
      else None
    case Month => TwoOrOneDigits(s, 1, 12, 1)
    case MonthAbbr => MatchMonth(MonthAbbrs, s, 0)
    case MonthName => MatchMonth(MonthNames, s, 0)
    case Day =>
      if |s| >= 2 && s[0] == ' ' && '1' <= s[1] <= '9' then Some((DigitValue(s[1]), s[2..]))
      else TwoOrOneDigits(s, 1, 31, 1)
    case Hour => TwoOrOneDigits(s, 0, 23, 0)
    case Minute => TwoOrOneDigits(s, 0, 59, 0)
    case Second => TwoOrOneDigits(s, 0, 61, 0)
    case Lit(c) => if |s| >= 1 && s[0] == c then Some((0, s[1..])) else None
    case Space => if |s| >= 1 && IsSpace(s[0]) then Some((0, TrimStart(s))) else None
  }

  /** Records the value a directive matched in the field it sets. */
  function Set(acc: DateTime, d: Directive, v: int): DateTime {
    match d
    case Year => acc.(year := v)
    case Month => acc.(month := v)
    case MonthAbbr => acc.(month := v)
    case MonthName => acc.(month := v)
    case Day => acc.(day := v)
    case Hour => acc.(hour := v)
    case Minute => acc.(minute := v)
    case Second => acc.(second := v)
    case Lit(_) => acc
    case Space => acc
  }

  /** Matches `fmt[i..]` against a prefix of `s`, like `re.match` (no end anchor); returns the
      collected fields and the unconsumed rest. */
  function Consume(fmt: Format, i: nat, s: string, acc: DateTime): Option<(DateTime, string)>
    requires i <= |fmt|
    decreases |fmt| - i
  {
    if i == |fmt| then Some((acc, s))
    else match Step(fmt[i], s)
      case None => None
      case Some((v, rest)) => Consume(fmt, i + 1, rest, Set(acc, fmt[i], v))
  }

  /** `datetime.strptime(s, fmt)`, with `None` for the `ValueError` cases: no match,
      unconverted data left over, or fields the `datetime` constructor rejects. */
  function Strptime(fmt: Format, s: string): (r: Option<DateTime>)
    ensures r.Some? ==> ValidDateTime(r.value)
  {
    match Consume(fmt, 0, s, Unset)
    case None => None
    case Some((d, rest)) => if rest == [] && ValidDateTime(d) then Some(d) else None
  }

  /** `strptime` against one format after another, all on the same text `s`. */
  function Attempt(s: string): Format -> Option<DateTime> {
    fmt => Strptime(fmt, s)
  }

  /** The `for fmt in (...)` loop of `parse_date`: tries `fmts` in order and returns the first
      successful parse. */
  function TryFormats(fmts: seq<Format>, s: string): (r: Option<DateTime>)
    ensures r.Some? ==> ValidDateTime(r.value)
  {
    FirstSome(fmts, Attempt(s))
  }

  /** `parse_date(raw)`: never raises; returns a valid calendar date or `None`. Which format
      produced the date is stated by `ParseDateFirstMatch`. */
  function ParseDate(raw: string): (r: Option<DateTime>)
    ensures r.Some? ==> ValidDateTime(r.value)
  {
    TryFormats(Formats, Trim(raw))
  }

  /** `parse_date` with its `for fmt in (...)` loop: the stripped input goes to `TryLoop`. */
  method ParseDateLoop(raw: string) returns (r: Option<DateTime>)
    ensures r == ParseDate(raw)
  {
    r := TryLoop(Formats, Trim(raw));
  }

  /** The loop over the formats: returns at the first format whose `strptime` succeeds, and
      `None` once all have failed. */
  method TryLoop(fmts: seq<Format>, s: string) returns (r: Option<DateTime>)
    ensures r == TryFormats(fmts, s)
  {
    var i := 0;
    while i < |fmts|
      invariant 0 <= i <= |fmts|
      invariant TryFormats(fmts, s) == FirstSome(fmts[i..], Attempt(s))
    {
      assert fmts[i..][1..] == fmts[i + 1..];
      var d := Strptime(fmts[i], s);
      if d.Some? {
        return d;
      }
      i := i + 1;
    }
    return None;
  }

  /** `parse_date` returns `None` exactly when none of the five formats accepts the stripped
      input. */
  lemma {:induction false} ParseDateNone(raw: string)
    ensures ParseDate(raw).None? <==> forall i :: 0 <= i < 5 ==> Strptime(Formats[i], Trim(raw)).None?
  {
    FirstSomeNone(Formats, Attempt(Trim(raw)));
  }

  /** A date `parse_date` returns is the parse of format `k`, and every format before `k`
      rejects the stripped input. */
  lemma {:induction false} ParseDateFirstMatch(raw: string) returns (k: nat)
    requires ParseDate(raw).Some?
    ensures k < 5 && Strptime(Formats[k], Trim(raw)) == ParseDate(raw)
    ensures forall j :: 0 <= j < k ==> Strptime(Formats[j], Trim(raw)).None?
  {
    k := FirstSomeWitness(Formats, Attempt(Trim(raw)));
  }

  /** `parse_date` returns what format `k` reads from the stripped input when every earlier
      format reads the same or nothing. */
  lemma {:induction false} ParseDateAgrees(raw: string, k: nat, t: DateTime)
    requires k < 5 && Strptime(Formats[k], Trim(raw)) == Some(t)
    requires forall j :: 0 <= j < k ==> Strptime(Formats[j], Trim(raw)).None? || Strptime(Formats[j], Trim(raw)) == Some(t)
    ensures ParseDate(raw) == Some(t)
  {
    FirstSomeAgrees(Formats, Attempt(Trim(raw)), k, t);
  }
}
