/** Properties of `parse_date`: every format accepts exactly the text `strftime` would write
    for it, the first four formats only ever yield midnight and never see a time of day, and
    surrounding whitespace is ignored. */
module DateLemmas {
  import opened Common
  import opened Text
  import opened Dates
  import opened Seqs

  /** Facts about the month-name tables: every full name begins with its abbreviation, the
      abbreviations are pairwise distinct, and only "may" is as short as its abbreviation. */
  lemma {:induction false} MonthTables()
    ensures |MonthAbbrs| == 12 && |MonthNames| == 12
    ensures forall k :: 0 <= k < 12 ==> |MonthAbbrs[k]| == 3 && 3 <= |MonthNames[k]| && MonthNames[k][..3] == MonthAbbrs[k]
    ensures forall k, i :: 0 <= k < 12 && 0 <= i < |MonthNames[k]| ==> 'a' <= MonthNames[k][i] <= 'z'
    ensures forall j, k :: 0 <= j < k < 12 ==> MonthAbbrs[j] != MonthAbbrs[k]
    ensures forall k :: 0 <= k < 12 && k != 4 ==> |MonthNames[k]| > 3
  {
  }

  /** Every month name, full or abbreviated, is spelled in lower-case ASCII letters. */
  lemma {:induction false} MonthLetters(names: seq<string>)
    requires names == MonthAbbrs || names == MonthNames
    ensures forall k, i :: 0 <= k < |names| && 0 <= i < |names[k]| ==> 'a' <= names[k][i] <= 'z'
  {
  }

  // ---------------------------------------------------------------------------------------
  // Rendering: the text `strftime` writes for a directive (zero-padded numbers, capitalised
  // English month names, a single blank for a format space).

  function Upper(c: char): (u: char)
    ensures 'a' <= c <= 'z' ==> 'A' <= u <= 'Z' && Lower(u) == c
  {
    if 'a' <= c <= 'z' then (c as int - 32) as char else c
  }

  function Capitalized(name: string): (r: string)
    requires |name| > 0
    ensures |r| == |name| && ('a' <= name[0] <= 'z' ==> 'A' <= r[0] <= 'Z')
    ensures forall i :: 0 <= i < |r| && 'a' <= name[i] <= 'z' ==> Lower(r[i]) == name[i]
  {
    [Upper(name[0])] + name[1..]
  }

  function Pad2(v: int): (r: string)
    requires 0 <= v < 100
    ensures |r| == 2 && IsDigit(r[0]) && IsDigit(r[1]) && 10 * DigitValue(r[0]) + DigitValue(r[1]) == v
  {
    [DigitChar(v / 10), DigitChar(v % 10)]
  }

  function Pad4(v: int): (r: string)
    requires 0 <= v < 10000
    ensures |r| == 4 && IsDigit(r[0]) && IsDigit(r[1]) && IsDigit(r[2]) && IsDigit(r[3])
    ensures 1000 * DigitValue(r[0]) + 100 * DigitValue(r[1]) + 10 * DigitValue(r[2]) + DigitValue(r[3]) == v
  {
    Pad2(v / 100) + Pad2(v % 100)
  }

  function RenderDirective(d: Directive, t: DateTime): (r: string)
    requires ValidDateTime(t)
    ensures |r| > 0
  {
    MonthTables();
    match d
    case Year => Pad4(t.year)
    case Month => Pad2(t.month)
    case MonthAbbr => Capitalized(MonthAbbrs[t.month - 1])
    case MonthName => Capitalized(MonthNames[t.month - 1])
    case Day => Pad2(t.day)
    case Hour => Pad2(t.hour)
    case Minute => Pad2(t.minute)
    case Second => Pad2(t.second)
    case Lit(c) => [c]
    case Space => " "
  }

  /** The text `t.strftime(fmt[i..])` produces. */
  function Render(fmt: Format, i: nat, t: DateTime): string
    requires i <= |fmt| && ValidDateTime(t)
    decreases |fmt| - i
  {
    if i == |fmt| then "" else RenderDirective(fmt[i], t) + Render(fmt, i + 1, t)
  }

  /** The field of `t` a directive reads. */
  function Field(d: Directive, t: DateTime): int {
    match d
    case Year => t.year
    case Month => t.month
    case MonthAbbr => t.month
    case MonthName => t.month
    case Day => t.day
    case Hour => t.hour
    case Minute => t.minute
    case Second => t.second
    case Lit(_) => 0
    case Space => 0
  }

  /** The fields collected by matching `fmt[i..]` against text rendered from `t`. */
  function Apply(fmt: Format, i: nat, t: DateTime, acc: DateTime): DateTime
    requires i <= |fmt|
    decreases |fmt| - i
  {
    if i == |fmt| then acc else Apply(fmt, i + 1, t, Set(acc, fmt[i], Field(fmt[i], t)))
  }

  /** A directive whose rendering does not start with whitespace. */
  predicate StartsSolid(d: Directive) {
    d != Space && !(d.Lit? && IsSpace(d.c))
  }

  /** Every format space is followed by a directive that does not start with whitespace, so
      the greedy whitespace match stops exactly where the rendered blank ends. */
  predicate SpacesWellPlaced(fmt: Format) {
    forall j :: 0 <= j < |fmt| - 1 && fmt[j] == Space ==> StartsSolid(fmt[j + 1])
  }

  lemma {:induction false} RenderSolid(d: Directive, t: DateTime)
    requires ValidDateTime(t) && StartsSolid(d)
    ensures !IsSpace(RenderDirective(d, t)[0])
  {
  }

  /** Month names match their own capitalised rendering and no earlier month. */
  lemma {:induction false} MatchMonthRendered(names: seq<string>, m: int, rest: string, k: nat)
    requires names == MonthAbbrs || names == MonthNames
    requires 1 <= m <= 12 && k <= m - 1
    ensures MatchMonth(names, Capitalized(names[m - 1]) + rest, k) == Some((m, rest))
  {
    var s := Capitalized(names[m - 1]) + rest;
    RenderedName(names, m, rest);
    forall j | k <= j < m - 1
      ensures !StartsWithIgnoringCase(s, names[j])
    {
      EarlierNameRejected(names, m, j, rest);
    }
    MatchMonthFinds(names, s, m, k);
  }

  /** `MatchMonth` returns the first month from `k` on whose name `s` starts with. */
  lemma {:induction false} MatchMonthFinds(names: seq<string>, s: string, m: int, k: nat)
    requires k < m <= |names| && StartsWithIgnoringCase(s, names[m - 1])
    requires forall j :: k <= j < m - 1 ==> !StartsWithIgnoringCase(s, names[j])
    ensures MatchMonth(names, s, k) == Some((m, s[|names[m - 1]|..]))
  {
  }

  /** A capitalised month name followed by `rest` starts with that name, ignoring case. */
  lemma {:induction false} RenderedName(names: seq<string>, m: int, rest: string)
    requires names == MonthAbbrs || names == MonthNames
    requires 1 <= m <= 12
    ensures var s := Capitalized(names[m - 1]) + rest;
            StartsWithIgnoringCase(s, names[m - 1]) && s[|names[m - 1]|..] == rest
  {
    MonthLetters(names);
  }

  /** Two different months differ within the first three letters of their names. */
  lemma {:induction false} NamesDiffer(names: seq<string>, j: int, k: int) returns (i: nat)
    requires names == MonthAbbrs || names == MonthNames
    requires 0 <= j < 12 && 0 <= k < 12 && j != k
    ensures i < 3 && i < |names[j]| && i < |names[k]| && names[j][i] != names[k][i]
  {
    MonthTables();
    var a, b := MonthAbbrs[j], MonthAbbrs[k];
    if names == MonthAbbrs {
      assert names[j][..3] == a && names[k][..3] == b;
    }
    assert a != b;
    i :| 0 <= i < 3 && names[j][..3][i] != names[k][..3][i];
  }

  /** A capitalised month name is not matched by the name of an earlier month. */
  lemma {:induction false} EarlierNameRejected(names: seq<string>, m: int, k: nat, rest: string)
    requires names == MonthAbbrs || names == MonthNames
    requires 1 <= m <= 12 && k < m - 1
    ensures !StartsWithIgnoringCase(Capitalized(names[m - 1]) + rest, names[k])
  {
    var s := Capitalized(names[m - 1]) + rest;
    RenderedName(names, m, rest);
    var i := NamesDiffer(names, k, m - 1);
    assert Lower(s[i]) == names[m - 1][i];
  }

  /** One directive consumes exactly its own rendering and yields the field it renders. */
  lemma {:induction false} StepRendered(d: Directive, t: DateTime, rest: string)
    requires ValidDateTime(t)
    requires d == Space ==> rest == [] || !IsSpace(rest[0])
    ensures Step(d, RenderDirective(d, t) + rest) == Some((Field(d, t), rest))
  {
    if d == MonthAbbr || d == MonthName {
      StepRenderedMonth(d, t, rest);
    } else if d.Lit? || d == Space {
      StepRenderedSeparator(d, t, rest);
    } else {
      StepRenderedNumber(d, t, rest);
    }
  }

  lemma {:induction false} StepRenderedMonth(d: Directive, t: DateTime, rest: string)
    requires ValidDateTime(t) && (d == MonthAbbr || d == MonthName)
    ensures Step(d, RenderDirective(d, t) + rest) == Some((Field(d, t), rest))
  {
    if d == MonthAbbr {
      MatchMonthRendered(MonthAbbrs, t.month, rest, 0);
    } else {
      MatchMonthRendered(MonthNames, t.month, rest, 0);
    }
  }

  lemma {:induction false} StepRenderedSeparator(d: Directive, t: DateTime, rest: string)
    requires ValidDateTime(t) && (d.Lit? || d == Space)
    requires d == Space ==> rest == [] || !IsSpace(rest[0])
    ensures Step(d, RenderDirective(d, t) + rest) == Some((Field(d, t), rest))
  {
    var s := RenderDirective(d, t) + rest;
    assert s[1..] == rest;
    if d == Space {
      assert TrimStart(s) == TrimStart(rest);
    }
  }

  lemma {:induction false} StepRenderedNumber(d: Directive, t: DateTime, rest: string)
    requires ValidDateTime(t)
    requires d in {Year, Month, Day, Hour, Minute, Second}
    ensures Step(d, RenderDirective(d, t) + rest) == Some((Field(d, t), rest))
  {
    var r := RenderDirective(d, t);
    var s := r + rest;
    if d == Year {
      assert s[4..] == rest;
    } else {
      assert s[2..] == rest;
    }
  }

  /** Matching a format against its own rendering, followed by any `rest` that does not
      extend a trailing format space, consumes the rendering and collects `t`'s fields. */
  lemma {:induction false} ConsumeRendered(fmt: Format, i: nat, t: DateTime, rest: string, acc: DateTime)
    requires i <= |fmt| && ValidDateTime(t) && SpacesWellPlaced(fmt)
    requires 0 < |fmt| && fmt[|fmt| - 1] == Space ==> rest == [] || !IsSpace(rest[0])
    ensures Consume(fmt, i, Render(fmt, i, t) + rest, acc) == Some((Apply(fmt, i, t, acc), rest))
    decreases |fmt| - i
  {
    if i == |fmt| {
      assert Render(fmt, i, t) + rest == rest;
    } else {
      var head := RenderDirective(fmt[i], t);
      var tail := Render(fmt, i + 1, t) + rest;
      assert Render(fmt, i, t) + rest == head + tail;
      if fmt[i] == Space {
        if i + 1 < |fmt| {
          var next := RenderDirective(fmt[i + 1], t);
          assert Render(fmt, i + 1, t) == next + Render(fmt, i + 2, t);
          RenderSolid(fmt[i + 1], t);
          assert tail[0] == next[0];
        } else {
          assert tail == rest;
        }
      }
      StepRendered(fmt[i], t, tail);
      ConsumeRendered(fmt, i + 1, t, rest, Set(acc, fmt[i], Field(fmt[i], t)));
    }
  }

  /** The rendering of a format ends with the last character of its last directive's. */
  lemma {:induction false} RenderEnds(fmt: Format, i: nat, t: DateTime)
    requires i < |fmt| && ValidDateTime(t)
    ensures var r := Render(fmt, i, t); var last := RenderDirective(fmt[|fmt| - 1], t);
            |r| > 0 && r[|r| - 1] == last[|last| - 1]
    decreases |fmt| - i
  {
    var head := RenderDirective(fmt[i], t);
    var tail := Render(fmt, i + 1, t);
    assert Render(fmt, i, t) == head + tail;
    if i + 1 < |fmt| {
      RenderEnds(fmt, i + 1, t);
    }
  }

  /** A format that begins with the directives of `pre` renders as `pre` does, followed by
      the rendering of its remaining directives. */
  lemma {:induction false} RenderPrefix(pre: Format, fmt: Format, i: nat, t: DateTime)
    requires i <= |pre| <= |fmt| && ValidDateTime(t)
    requires forall j :: i <= j < |pre| ==> pre[j] == fmt[j]
    ensures Render(fmt, i, t) == Render(pre, i, t) + Render(fmt, |pre|, t)
    decreases |pre| - i
  {
    if i < |pre| {
      RenderPrefix(pre, fmt, i + 1, t);
      var head := RenderDirective(fmt[i], t);
      assert Render(pre, i, t) == head + Render(pre, i + 1, t);
      ConcatAssoc(head, Render(pre, i + 1, t), Render(fmt, |pre|, t));
    }
  }

  /** `IsoDateTime` renders as the ISO date followed by a blank and the time of day. */
  lemma {:induction false} IsoDateTimeRender(t: DateTime)
    requires ValidDateTime(t)
    ensures Render(IsoDateTime, 0, t) == Render(IsoDate, 0, t) + " " + Render(IsoDateTime, 6, t)
  {
    RenderPrefix(IsoDate, IsoDateTime, 0, t);
    assert Render(IsoDateTime, 5, t) == " " + Render(IsoDateTime, 6, t);
  }

  /** The rendering of each format collects back exactly `t` (the date-only formats leave
      the time at midnight). */
  lemma {:induction false} FormatFields(k: nat, t: DateTime)
    requires k < 5 && ValidDateTime(t) && (k < 4 ==> IsMidnight(t))
    ensures SpacesWellPlaced(Formats[k])
    ensures Apply(Formats[k], 0, t, Unset) == t
  {
    SpacesPlaced(k);
    FieldsCollected(k, t);
  }

  /** Every format space is followed by a day or a year. */
  lemma {:induction false} SpacesPlaced(k: nat)
    requires k < 5
    ensures SpacesWellPlaced(Formats[k])
  {
    if k == 0 {
      assert Formats[k] == IsoDate;
    } else if k == 1 {
      assert Formats[k] == DottedDate;
    } else if k == 2 {
      assert Formats[k] == AbbrMonthDate;
    } else if k == 3 {
      assert Formats[k] == FullMonthDate;
    } else {
      assert Formats[k] == IsoDateTime;
    }
  }

  lemma {:induction false} FieldsCollected(k: nat, t: DateTime)
    requires k < 5 && ValidDateTime(t) && (k < 4 ==> IsMidnight(t))
    ensures Apply(Formats[k], 0, t, Unset) == t
  {
    var fmt := Formats[k];
    var a1 := Set(Unset, fmt[0], Field(fmt[0], t));
    var a2 := Set(a1, fmt[1], Field(fmt[1], t));
    var a3 := Set(a2, fmt[2], Field(fmt[2], t));
    var a4 := Set(a3, fmt[3], Field(fmt[3], t));
    var a5 := Set(a4, fmt[4], Field(fmt[4], t));
    assert Apply(fmt, 0, t, Unset) == Apply(fmt, 5, t, a5);
    if k == 2 || k == 3 {
      var a6 := Set(a5, fmt[5], Field(fmt[5], t));
      assert Apply(fmt, 5, t, a5) == Apply(fmt, 6, t, a6);
    } else if k == 4 {
      var a6 := Set(a5, fmt[5], Field(fmt[5], t));
      var a7 := Set(a6, fmt[6], Field(fmt[6], t));
      var a8 := Set(a7, fmt[7], Field(fmt[7], t));
      var a9 := Set(a8, fmt[8], Field(fmt[8], t));
      var a10 := Set(a9, fmt[9], Field(fmt[9], t));
      assert Apply(fmt, 5, t, a5) == Apply(fmt, 10, t, a10);
    }
  }

  /** A format whose rendering collects back `t` accepts that rendering. */
  lemma {:induction false} StrptimeRendered(fmt: Format, t: DateTime)
    requires ValidDateTime(t) && SpacesWellPlaced(fmt) && Apply(fmt, 0, t, Unset) == t
    ensures Strptime(fmt, Render(fmt, 0, t)) == Some(t)
  {
    var s := Render(fmt, 0, t);
    ConsumeRendered(fmt, 0, t, [], Unset);
    assert s + [] == s;
  }

  /** Two formats that agree from position `i` on render the same text from there. */
  lemma {:induction false} RenderAgree(f1: Format, f2: Format, i: nat, t: DateTime)
    requires i <= |f1| == |f2| && ValidDateTime(t)
    requires forall j :: i <= j < |f1| ==> f1[j] == f2[j]
    ensures Render(f1, i, t) == Render(f2, i, t)
    decreases |f1| - i
  {
    if i < |f1| {
      RenderAgree(f1, f2, i + 1, t);
    }
  }

  // ---------------------------------------------------------------------------------------
  // Which formats reject which renderings.

  /** Text starting with neither a digit nor a blank is rejected by the formats that start
      with a number. */
  lemma {:induction false} NonDigitFirstRejected(s: string)
    requires |s| > 0 && !IsDigit(s[0]) && s[0] != ' '
    ensures Strptime(IsoDate, s).None? && Strptime(DottedDate, s).None? && Strptime(IsoDateTime, s).None?
  {
    FirstStepRejects(IsoDate, s);
    FirstStepRejects(DottedDate, s);
    FirstStepRejects(IsoDateTime, s);
  }

  /** Text starting with a digit is rejected by the formats that start with a month name. */
  lemma {:induction false} DigitFirstRejected(s: string)
    requires |s| > 0 && IsDigit(s[0])
    ensures Strptime(AbbrMonthDate, s).None? && Strptime(FullMonthDate, s).None?
  {
    NoMonthBeforeDigit(MonthAbbrs, s);
    NoMonthBeforeDigit(MonthNames, s);
    FirstStepRejects(AbbrMonthDate, s);
    FirstStepRejects(FullMonthDate, s);
  }

  /** No month name is a prefix of text starting with a digit. */
  lemma {:induction false} NoMonthBeforeDigit(names: seq<string>, s: string)
    requires names == MonthAbbrs || names == MonthNames
    requires |s| > 0 && IsDigit(s[0])
    ensures MatchMonth(names, s, 0).None?
  {
    MonthLetters(names);
    forall j | 0 <= j < |names|
      ensures !StartsWithIgnoringCase(s, names[j])
    {
      assert |names[j]| > 0;
      assert Lower(s[0]) != names[j][0];
    }
  }

  /** A format whose first directive matches nothing rejects the text. */
  lemma {:induction false} FirstStepRejects(fmt: Format, s: string)
    requires |fmt| > 0 && Step(fmt[0], s).None?
    ensures Strptime(fmt, s).None?
  {
  }

  /** Text starting with three digits is rejected by `%d.%m.%Y`: the day takes one or two
      digits and the next character is then a digit, not the dot. */
  lemma {:induction false} DigitsRejectedByDotted(s: string)
    requires |s| >= 3 && IsDigit(s[0]) && IsDigit(s[1]) && IsDigit(s[2])
    ensures Strptime(DottedDate, s).None?
  {
  }

  /** The ISO date format rejects a dotted date: its year needs four digits in a row. */
  lemma {:induction false} DottedRejectedByIso(t: DateTime)
    requires ValidDateTime(t)
    ensures Strptime(IsoDate, Render(DottedDate, 0, t)).None?
  {
    var s := Render(DottedDate, 0, t);
    assert s == Pad2(t.day) + ("." + Render(DottedDate, 2, t));
    assert s[2] == '.';
  }

  /** The ISO date format reads the date part of a date-time and leaves the time unconverted. */
  lemma {:induction false} DateTimeRejectedByIsoDate(t: DateTime)
    requires ValidDateTime(t)
    ensures Strptime(IsoDate, Render(IsoDateTime, 0, t)).None?
  {
    var tail := " " + Render(IsoDateTime, 6, t);
    assert Render(IsoDateTime, 0, t) == Render(IsoDate, 0, t) + tail by {
      IsoDateTimeRender(t);
      ConcatAssoc(Render(IsoDate, 0, t), " ", Render(IsoDateTime, 6, t));
    }
    LeftoverRejected(IsoDate, t, tail);
  }

  /** A format that does not end in a space rejects its own rendering followed by more text:
      the match stops where the rendering ends and the rest is unconverted data. */
  lemma {:induction false} LeftoverRejected(fmt: Format, t: DateTime, tail: string)
    requires ValidDateTime(t) && SpacesWellPlaced(fmt) && 0 < |fmt| && fmt[|fmt| - 1] != Space
    requires tail != []
    ensures Strptime(fmt, Render(fmt, 0, t) + tail).None?
  {
    ConsumeRendered(fmt, 0, t, tail, Unset);
  }

  lemma {:induction false} DateTimeStartsWithDigits(t: DateTime)
    requires ValidDateTime(t)
    ensures var s := Render(IsoDateTime, 0, t); |s| >= 3 && IsDigit(s[0]) && IsDigit(s[1]) && IsDigit(s[2])
  {
    var s := Render(IsoDateTime, 0, t);
    assert s == Pad4(t.year) + Render(IsoDateTime, 1, t);
  }

  /** The ISO date-time rendering is rejected by every date-only format. */
  lemma {:induction false} DateTimeRejectedByDateOnly(t: DateTime)
    requires ValidDateTime(t)
    ensures forall k :: 0 <= k < 4 ==> Strptime(Formats[k], Render(IsoDateTime, 0, t)).None?
  {
    DateTimeRejectedByIsoDate(t);
    DateTimeStartsWithDigits(t);
    DateOnlyRejectDigits(Render(IsoDateTime, 0, t));
  }

  /** Text starting with three digits that the ISO date format rejects is rejected by every
      date-only format. */
  lemma {:induction false} DateOnlyRejectDigits(s: string)
    requires |s| >= 3 && IsDigit(s[0]) && IsDigit(s[1]) && IsDigit(s[2])
    requires Strptime(IsoDate, s).None?
    ensures forall k :: 0 <= k < 4 ==> Strptime(Formats[k], s).None?
  {
    DigitsRejectedByDotted(s);
    DigitFirstRejected(s);
    forall k | 0 <= k < 4
      ensures Strptime(Formats[k], s).None?
    {
      if k == 0 {
        assert Formats[k] == IsoDate;
      } else if k == 1 {
        assert Formats[k] == DottedDate;
      } else if k == 2 {
        assert Formats[k] == AbbrMonthDate;
      } else {
        assert Formats[k] == FullMonthDate;
      }
    }
  }

  /** A full month name starts with its abbreviation and, except for May, goes on with a
      further letter. */
  lemma {:induction false} NameExtendsAbbr(k: nat)
    requires k < 12
    ensures 3 <= |MonthNames[k]| && MonthNames[k][..3] == MonthAbbrs[k]
    ensures k != 4 ==> |MonthNames[k]| > 3 && 'a' <= MonthNames[k][3] <= 'z'
    ensures k == 4 ==> MonthNames[k] == MonthAbbrs[k]
  {
  }

  /** May is rendered alike by `%b %d, %Y` and `%B %d, %Y`. */
  lemma {:induction false} MayRendersAlike(t: DateTime)
    requires ValidDateTime(t) && t.month == 5
    ensures Render(FullMonthDate, 0, t) == Render(AbbrMonthDate, 0, t)
  {
    NameExtendsAbbr(4);
    RenderAgree(AbbrMonthDate, FullMonthDate, 1, t);
    assert Render(FullMonthDate, 0, t) == RenderDirective(MonthName, t) + Render(FullMonthDate, 1, t);
    assert Render(AbbrMonthDate, 0, t) == RenderDirective(MonthAbbr, t) + Render(AbbrMonthDate, 1, t);
  }

  /** `%b %d, %Y` rejects text whose month abbreviation is not followed by whitespace. */
  lemma {:induction false} AbbrWithoutSpaceRejected(s: string, v: int, after: string)
    requires Step(MonthAbbr, s) == Some((v, after))
    requires after == [] || !IsSpace(after[0])
    ensures Strptime(AbbrMonthDate, s).None?
  {
    assert Step(Space, after).None?;
    assert Consume(AbbrMonthDate, 1, after, Set(Unset, MonthAbbr, v)).None?;
  }

  /** For any month but May, `%b` reads the first three letters of the capitalised full name
      and leaves a lower-case letter in front. */
  lemma {:induction false} AbbrReadsNamePrefix(m: int, rest: string)
    requires 1 <= m <= 12 && m != 5
    ensures var after := MonthNames[m - 1][3..] + rest;
            Step(MonthAbbr, Capitalized(MonthNames[m - 1]) + rest) == Some((m, after))
            && after != [] && !IsSpace(after[0])
  {
    NameExtendsAbbr(m - 1);
    var name := MonthNames[m - 1];
    var after := name[3..] + rest;
    CapitalizedPrefix(name, MonthAbbrs[m - 1], rest);
    MatchMonthRendered(MonthAbbrs, m, after, 0);
    assert after[0] == name[3];
  }

  /** Capitalising a name capitalises its three-letter prefix and keeps the rest. */
  lemma {:induction false} CapitalizedPrefix(name: string, abbr: string, rest: string)
    requires |abbr| == 3 <= |name| && name[..3] == abbr
    ensures Capitalized(name) + rest == Capitalized(abbr) + (name[3..] + rest)
  {
    assert name == abbr + name[3..];
    assert Capitalized(name) == Capitalized(abbr) + name[3..];
  }

  /** A `%B %d, %Y` rendering starts with the capitalised full month name. */
  lemma {:induction false} FullNameFirst(t: DateTime)
    requires ValidDateTime(t)
    ensures Render(FullMonthDate, 0, t) == Capitalized(MonthNames[t.month - 1]) + Render(FullMonthDate, 1, t)
  {
  }

  /** For any other month, `%b` reads the first three letters of the full name and the format
      space after it then meets a letter. */
  lemma {:induction false} FullNameRejectedByAbbr(t: DateTime)
    requires ValidDateTime(t) && t.month != 5
    ensures Strptime(AbbrMonthDate, Render(FullMonthDate, 0, t)).None?
  {
    FullNameFirst(t);
    AbbrRejectsFullName(t.month, Render(FullMonthDate, 1, t));
  }

  lemma {:induction false} AbbrRejectsFullName(m: int, tail: string)
    requires 1 <= m <= 12 && m != 5
    ensures Strptime(AbbrMonthDate, Capitalized(MonthNames[m - 1]) + tail).None?
  {
    NameExtendsAbbr(m - 1);
    var name := MonthNames[m - 1];
    AbbrReadsNamePrefix(m, tail);
    AbbrWithoutSpaceRejected(Capitalized(name) + tail, m, name[3..] + tail);
  }

  /** A rendering that starts with a digit or letter and ends with a digit has no whitespace
      around it. */
  lemma {:induction false} RenderUnpadded(fmt: Format, t: DateTime)
    requires |fmt| > 0 && ValidDateTime(t)
    requires fmt[0] in {Year, Day, MonthAbbr, MonthName}
    requires fmt[|fmt| - 1] in {Year, Day, Second}
    ensures var s := Render(fmt, 0, t); |s| > 0 && !IsSpace(s[0]) && !IsSpace(s[|s| - 1])
  {
    var s := Render(fmt, 0, t);
    var first := RenderDirective(fmt[0], t);
    var last := RenderDirective(fmt[|fmt| - 1], t);
    RenderEnds(fmt, 0, t);
    assert s[0] == first[0];
    OpensWithDigitOrCapital(fmt[0], t);
    assert IsDigit(last[|last| - 1]);
  }

  /** Numbers render as digits and month names start with a capital letter. */
  lemma {:induction false} OpensWithDigitOrCapital(d: Directive, t: DateTime)
    requires ValidDateTime(t) && d in {Year, Day, MonthAbbr, MonthName}
    ensures var r := RenderDirective(d, t); IsDigit(r[0]) || 'A' <= r[0] <= 'Z'
  {
    MonthTables();
  }

  /** Every format reads back the date-time it renders. */
  lemma {:induction false} ReadsOwnRendering(k: nat, t: DateTime)
    requires k < 5 && ValidDateTime(t) && (k < 4 ==> IsMidnight(t))
    ensures Strptime(Formats[k], Render(Formats[k], 0, t)) == Some(t)
  {
    FormatFields(k, t);
    StrptimeRendered(Formats[k], t);
  }

  /** Every rendering is already stripped: it neither starts nor ends with whitespace. */
  lemma {:induction false} RenderingUnpadded(k: nat, t: DateTime)
    requires k < 5 && ValidDateTime(t)
    ensures var s := Render(Formats[k], 0, t); |s| > 0 && !IsSpace(s[0]) && !IsSpace(s[|s| - 1])
  {
    RenderUnpadded(Formats[k], t);
  }

  lemma {:induction false} DottedEarlier(t: DateTime)
    requires ValidDateTime(t)
    ensures Strptime(Formats[0], Render(Formats[1], 0, t)).None?
  {
    DottedRejectedByIso(t);
  }

  lemma {:induction false} MonthFirstEarlier(k: nat, t: DateTime)
    requires (k == 2 || k == 3) && ValidDateTime(t)
    ensures Strptime(Formats[0], Render(Formats[k], 0, t)).None?
    ensures Strptime(Formats[1], Render(Formats[k], 0, t)).None?
  {
    var s := Render(Formats[k], 0, t);
    assert s[0] == RenderDirective(Formats[k][0], t)[0];
    NonDigitFirstRejected(s);
  }

  /** `%b %d, %Y` either rejects a `%B %d, %Y` rendering or, for May, reads the same date. */
  lemma {:induction false} FullMonthEarlier(t: DateTime)
    requires ValidDateTime(t) && IsMidnight(t)
    ensures Strptime(Formats[2], Render(Formats[3], 0, t)).None?
            || Strptime(Formats[2], Render(Formats[3], 0, t)) == Some(t)
  {
    if t.month == 5 {
      MayRendersAlike(t);
      ReadsOwnRendering(2, t);
    } else {
      FullNameRejectedByAbbr(t);
    }
  }

  /** A format before format `k` rejects its rendering or reads the same date-time. */
  lemma {:induction false} EarlierFormatAgrees(j: nat, k: nat, t: DateTime)
    requires j < k < 5 && ValidDateTime(t) && (k < 4 ==> IsMidnight(t))
    ensures Strptime(Formats[j], Render(Formats[k], 0, t)).None?
            || Strptime(Formats[j], Render(Formats[k], 0, t)) == Some(t)
  {
    if k == 4 {
      DateTimeRejectedByDateOnly(t);
    } else if j == 2 {
      FullMonthEarlier(t);
    } else if k == 1 {
      DottedEarlier(t);
    } else {
      MonthFirstEarlier(k, t);
    }
  }

  /** Round trip: `parse_date` reads back every date it can be given in any of its five
      formats (the date-only formats carry no time of day, so `t` is midnight for them). */
  lemma {:induction false} ParseDateRoundTrip(k: nat, t: DateTime)
    requires k < 5 && ValidDateTime(t) && (k < 4 ==> IsMidnight(t))
    ensures ParseDate(Render(Formats[k], 0, t)) == Some(t)
  {
    ReadsOwnRendering(k, t);
    RenderingUnpadded(k, t);
    forall j | 0 <= j < k
      ensures Strptime(Formats[j], Render(Formats[k], 0, t)).None?
              || Strptime(Formats[j], Render(Formats[k], 0, t)) == Some(t)
    {
      EarlierFormatAgrees(j, k, t);
    }
    UnpaddedAgrees(Render(Formats[k], 0, t), k, t);
  }

  /** `ParseDateAgrees` for text that `strip()` leaves alone. */
  lemma {:induction false} UnpaddedAgrees(s: string, k: nat, t: DateTime)
    requires |s| > 0 && !IsSpace(s[0]) && !IsSpace(s[|s| - 1])
    requires k < 5 && Strptime(Formats[k], s) == Some(t)
    requires forall j :: 0 <= j < k ==> Strptime(Formats[j], s).None? || Strptime(Formats[j], s) == Some(t)
    ensures ParseDate(s) == Some(t)
  {
    TrimUnpadded(s);
    ParseDateAgrees(s, k, t);
  }

  // ---------------------------------------------------------------------------------------
  // The date-only formats never read a time of day.

  /** Matching directives other than `%H`, `%M`, `%S` leaves the time fields as they were. */
  lemma {:induction false} ConsumeKeepsTime(fmt: Format, i: nat, s: string, acc: DateTime)
    requires i <= |fmt|
    requires forall j :: i <= j < |fmt| ==> !fmt[j].Hour? && !fmt[j].Minute? && !fmt[j].Second?
    ensures var r := Consume(fmt, i, s, acc);
            r.Some? ==> r.value.0.hour == acc.hour && r.value.0.minute == acc.minute && r.value.0.second == acc.second
    decreases |fmt| - i
  {
    if i < |fmt| {
      match Step(fmt[i], s)
      case None =>
      case Some((v, rest)) => ConsumeKeepsTime(fmt, i + 1, rest, Set(acc, fmt[i], v));
    }
  }

  /** Text matching a lower-case letter word, ignoring case, holds no colon there. */
  lemma {:induction false} WordNoColon(s: string, word: string)
    requires StartsWithIgnoringCase(s, word)
    requires forall i :: 0 <= i < |word| ==> 'a' <= word[i] <= 'z'
    ensures forall k :: 0 <= k < |word| ==> s[k] != ':'
  {
    forall k | 0 <= k < |word| ensures s[k] != ':' {
      assert Lower(s[k]) == word[k];
    }
  }

  /** A month name consumes letters only. */
  lemma {:induction false} MatchMonthNoColon(names: seq<string>, s: string)
    requires names == MonthAbbrs || names == MonthNames
    ensures var r := MatchMonth(names, s, 0);
            r.Some? ==> forall k :: 0 <= k < |s| - |r.value.1| ==> s[k] != ':'
  {
    var r := MatchMonth(names, s, 0);
    if r.Some? {
      var name := names[r.value.0 - 1];
      MonthLetters(names);
      WordNoColon(s, name);
    }
  }

  /** A directive other than a literal colon never consumes a colon. */
  lemma {:induction false} StepNoColon(d: Directive, s: string)
    requires d != Lit(':')
    ensures var r := Step(d, s);
            r.Some? ==> |r.value.1| <= |s| && r.value.1 == s[|s| - |r.value.1|..]
                        && forall k :: 0 <= k < |s| - |r.value.1| ==> s[k] != ':'
  {
    match d
    case MonthAbbr => MatchMonthNoColon(MonthAbbrs, s);
    case MonthName => MatchMonthNoColon(MonthNames, s);
    case Month => DigitsNoColon(s, 1, 12, 1);
    case Day => DayNoColon(s);
    case Hour => DigitsNoColon(s, 0, 23, 0);
    case Minute => DigitsNoColon(s, 0, 59, 0);
    case Second => DigitsNoColon(s, 0, 61, 0);
    case Space => SpaceNoColon(s);
    case Year => YearNoColon(s);
    case Lit(c) =>
  }

  /** A four-digit year contains no colon. */
  lemma {:induction false} YearNoColon(s: string)
    ensures var r := Step(Year, s);
            r.Some? ==> |r.value.1| <= |s| && r.value.1 == s[|s| - |r.value.1|..]
                        && forall k :: 0 <= k < |s| - |r.value.1| ==> s[k] != ':'
  {
  }

  /** A space-padded or numeric day contains no colon. */
  lemma {:induction false} DayNoColon(s: string)
    ensures var r := Step(Day, s);
            r.Some? ==> |r.value.1| <= |s| && r.value.1 == s[|s| - |r.value.1|..]
                        && forall k :: 0 <= k < |s| - |r.value.1| ==> s[k] != ':'
  {
    if !(|s| >= 2 && s[0] == ' ' && '1' <= s[1] <= '9') {
      DigitsNoColon(s, 1, 31, 1);
    }
  }

  /** One or two digits contain no colon. */
  lemma {:induction false} DigitsNoColon(s: string, lo: int, hi: int, minSingle: int)
    ensures var r := TwoOrOneDigits(s, lo, hi, minSingle);
            r.Some? ==> |r.value.1| <= |s| && r.value.1 == s[|s| - |r.value.1|..]
                        && forall k :: 0 <= k < |s| - |r.value.1| ==> s[k] != ':'
  {
    var r := TwoOrOneDigits(s, lo, hi, minSingle);
    if r.Some? {
      forall k | 0 <= k < |s| - |r.value.1| ensures s[k] != ':' {
        assert IsDigit(s[k]);
      }
    }
  }

  /** Leading whitespace contains no colon. */
  lemma {:induction false} SpaceNoColon(s: string)
    ensures var r := Step(Space, s);
            r.Some? ==> |r.value.1| <= |s| && r.value.1 == s[|s| - |r.value.1|..]
                        && forall k :: 0 <= k < |s| - |r.value.1| ==> s[k] != ':'
  {
    var t := TrimStart(s);
    forall k | 0 <= k < |s| - |t| ensures s[k] != ':' {
      assert IsSpace(s[..|s| - |t|][k]);
    }
  }

  lemma {:induction false} ConsumeNoColon(fmt: Format, i: nat, s: string, acc: DateTime)
    requires i <= |fmt|
    requires forall j :: i <= j < |fmt| ==> fmt[j] != Lit(':')
    ensures var r := Consume(fmt, i, s, acc);
            r.Some? ==> |r.value.1| <= |s| && r.value.1 == s[|s| - |r.value.1|..]
                        && forall k :: 0 <= k < |s| - |r.value.1| ==> s[k] != ':'
    decreases |fmt| - i
  {
    if i < |fmt| {
      StepNoColon(fmt[i], s);
      match Step(fmt[i], s)
      case None =>
      case Some((v, rest)) =>
        ConsumeNoColon(fmt, i + 1, rest, Set(acc, fmt[i], v));
    }
  }

  /** The four date-only formats yield midnight and accept no text containing a colon. */
  lemma {:induction false} DateOnlyFormats(k: nat, s: string)
    requires k < 4
    ensures Strptime(Formats[k], s).Some? ==> IsMidnight(Strptime(Formats[k], s).value)
    ensures Strptime(Formats[k], s).Some? ==> forall i :: 0 <= i < |s| ==> s[i] != ':'
  {
    ConsumeKeepsTime(Formats[k], 0, s, Unset);
    ConsumeNoColon(Formats[k], 0, s, Unset);
  }

  /** A time of day, or a colon anywhere in the stripped input, can only come through the
      last format, `%Y-%m-%d %H:%M:%S`; the four date-only formats all reject such input. */
  lemma {:induction false} TimeOnlyThroughLastFormat(raw: string)
    requires ParseDate(raw).Some?
    requires !IsMidnight(ParseDate(raw).value) || exists i :: 0 <= i < |Trim(raw)| && Trim(raw)[i] == ':'
    ensures Strptime(IsoDateTime, Trim(raw)) == ParseDate(raw)
    ensures forall j :: 0 <= j < 4 ==> Strptime(Formats[j], Trim(raw)).None?
  {
    var s := Trim(raw);
    var k := ParseDateFirstMatch(raw);
    if k < 4 {
      DateOnlyFormats(k, s);
      assert false;
    }
  }

  /** Whitespace around the input does not change what `parse_date` returns. */
  lemma {:induction false} ParseDatePadded(pre: string, s: string, post: string)
    requires AllSpace(pre) && AllSpace(post)
    ensures ParseDate(pre + s + post) == ParseDate(s)
  {
    TrimPadded(pre, s, post);
  }

  // ---------------------------------------------------------------------------------------
  // Worked examples: a dotted date, a date with a full month name, and text that is no date.

  /** The numbers of 15 March 2023, zero-padded. */
  lemma {:induction false} ExamplePads()
    ensures Pad2(15) == "15" && Pad2(3) == "03" && Pad4(2023) == "2023"
  {
    assert Pad2(20) == "20" && Pad2(23) == "23";
  }

  lemma {:induction false} DottedRendering()
    ensures Render(Formats[1], 0, DateTime(2023, 3, 15, 0, 0, 0)) == "15.03.2023"
  {
    ExamplePads();
  }

  /** "15.03.2023" is 15 March 2023, read by `%d.%m.%Y`. */
  lemma {:induction false} DottedExample(s: string)
    requires s == "15.03.2023"
    ensures ParseDate(s) == Some(DateTime(2023, 3, 15, 0, 0, 0))
  {
    DottedRendering();
    ParseDateRoundTrip(1, DateTime(2023, 3, 15, 0, 0, 0));
  }

  /** The text `%B %d, %Y` renders, directive by directive. */
  lemma {:induction false} FullMonthDateText(t: DateTime)
    requires ValidDateTime(t)
    ensures Render(FullMonthDate, 0, t)
            == Capitalized(MonthNames[t.month - 1]) + " " + Pad2(t.day) + "," + " " + Pad4(t.year)
  {
    var f := FullMonthDate;
    assert Render(f, 3, t) == "," + " " + Pad4(t.year) by {
      assert Render(f, 5, t) == Pad4(t.year) + "";
    }
    assert Render(f, 1, t) == " " + Pad2(t.day) + "," + " " + Pad4(t.year);
  }

  lemma {:induction false} FullMonthRendering()
    ensures Render(Formats[3], 0, DateTime(2023, 3, 15, 0, 0, 0)) == "March 15, 2023"
  {
    var t := DateTime(2023, 3, 15, 0, 0, 0);
    FullMonthDateText(t);
    ExamplePads();
    MarchCapitalized();
    assert "March" + " " + "15" + "," + " " + "2023" == "March 15, 2023";
  }

  lemma {:induction false} MarchCapitalized()
    ensures Capitalized(MonthNames[2]) == "March"
  {
    assert MonthNames[2] == "march";
    assert Upper('m') == 'M';
  }

  /** "March 15, 2023" is 15 March 2023, read by `%B %d, %Y`. */
  lemma {:induction false} FullMonthExample(s: string)
    requires s == "March 15, 2023"
    ensures ParseDate(s) == Some(DateTime(2023, 3, 15, 0, 0, 0))
  {
    FullMonthRendering();
    ParseDateRoundTrip(3, DateTime(2023, 3, 15, 0, 0, 0));
  }

  /** A lower-case name of three or more letters that does not begin "n?t" is no prefix of
      text that does. */
  lemma {:induction false} NameNotLikeNot(name: string, s: string)
    requires |name| >= 3 && (name[0] != 'n' || name[2] != 't')
    requires |s| >= 3 && s[0] == 'n' && s[2] == 't'
    ensures !StartsWithIgnoringCase(s, name)
  {
    if name[0] != 'n' {
      assert Lower(s[0]) != name[0];
    } else {
      assert Lower(s[2]) != name[2];
    }
  }

  /** No month name, full or abbreviated, is a prefix of text beginning "n?t". */
  lemma {:induction false} NoMonthLikeNot(names: seq<string>, s: string)
    requires names == MonthAbbrs || names == MonthNames
    requires |s| >= 3 && s[0] == 'n' && s[2] == 't'
    ensures MatchMonth(names, s, 0).None?
  {
    assert forall j :: 0 <= j < |names| ==> |names[j]| >= 3 && (names[j][0] != 'n' || names[j][2] != 't');
    forall j | 0 <= j < |names|
      ensures !StartsWithIgnoringCase(s, names[j])
    {
      NameNotLikeNot(names[j], s);
    }
  }

  /** No format accepts text beginning "n?t". */
  lemma {:induction false} NotLikeRejected(s: string)
    requires |s| >= 3 && s[0] == 'n' && s[2] == 't'
    ensures forall k :: 0 <= k < 5 ==> Strptime(Formats[k], s).None?
  {
    NonDigitFirstRejected(s);
    NoMonthLikeNot(MonthAbbrs, s);
    NoMonthLikeNot(MonthNames, s);
    FirstStepRejects(AbbrMonthDate, s);
    FirstStepRejects(FullMonthDate, s);
    forall k | 0 <= k < 5
      ensures Strptime(Formats[k], s).None?
    {
      if k == 0 {
        assert Formats[k] == IsoDate;
      } else if k == 1 {
        assert Formats[k] == DottedDate;
      } else if k == 2 {
        assert Formats[k] == AbbrMonthDate;
      } else if k == 3 {
        assert Formats[k] == FullMonthDate;
      } else {
        assert Formats[k] == IsoDateTime;
      }
    }
  }

  /** Text that begins "n?t" and ends in no whitespace is no date. */
  lemma {:induction false} NotLikeNoDate(s: string)
    requires |s| >= 3 && s[0] == 'n' && s[2] == 't' && !IsSpace(s[|s| - 1])
    ensures ParseDate(s) == None
  {
    NotLikeRejected(s);
    UnpaddedRejected(s);
  }

  /** Text without surrounding whitespace that every format rejects is no date. */
  lemma {:induction false} UnpaddedRejected(s: string)
    requires |s| > 0 && !IsSpace(s[0]) && !IsSpace(s[|s| - 1])
    requires forall k :: 0 <= k < 5 ==> Strptime(Formats[k], s).None?
    ensures ParseDate(s) == None
  {
    TrimUnpadded(s);
    ParseDateNone(s);
  }

  /** "not-a-date" is no date. */
  lemma {:induction false} NotADateExample(s: string)
    requires s == "not-a-date"
    ensures ParseDate(s) == None
  {
    NotLikeNoDate(s);
  }
}
