/**
 * The quiz report page: who may open it, how its filters become the
 * arguments of the report queries, the medals of the ranking and how a
 * stored evaluation name is shown as a name and a date.
 */
module QuizReport {
  import opened Wrappers
  import opened Strings
  import opened QuizQueries
  import QuizSelect

  // ---------------------------------------------------------------------
  // Access and filters

  /** A day picked in a date input. */
  datatype Date = Date(year: nat, month: nat, day: nat)

  /** `start_date > end_date` on `datetime.date`. */
  predicate After(a: Date, b: Date) {
    a.year > b.year || (a.year == b.year && (a.month > b.month || (a.month == b.month && a.day > b.day)))
  }

  /** `str(n)` padded with zeros on the left to `width` characters. */
  function Padded(n: nat, width: nat): (r: string)
    ensures |r| >= width && |r| >= 1
  {
    var s := NatToString(n);
    if |s| >= width then s else seq(width - |s|, _ => '0') + s
  }

  /** `d.strftime('%Y-%m-%d')`. */
  function DateText(d: Date): (r: string)
    ensures |r| >= 10
  {
    Padded(d.year, 4) + "-" + Padded(d.month, 2) + "-" + Padded(d.day, 2)
  }

  /** The quiz selector: all quizzes, or one quiz file. */
  datatype QuizChoice = AllQuizzes | QuizFile(fileId: int)

  /** What the page shows once its checks are made. */
  datatype ReportView = AccessDenied | BadDateRange | Report(filters: Filters)

  function DateFilter(d: Option<Date>): Option<string> {
    match d
    case None => None
    case Some(day) => Some(DateText(day))
  }

  /**
   * The page's gate and filters: `modules` is the session's module list as
   * text, `hasQuizFiles` whether the user has quiz files (only then is the
   * selector shown).
   */
  function OpenReport(modules: string, hasQuizFiles: bool, choice: QuizChoice, start: Option<Date>, end: Option<Date>)
    : (r: ReportView)
    ensures r == AccessDenied <==> !Contains(modules, "Administrator")
    ensures r == BadDateRange <==> Contains(modules, "Administrator") && start.Some? && end.Some? && After(start.value, end.value)
    ensures r.Report? ==> r.filters.fileId == if hasQuizFiles && choice.QuizFile? then Some(choice.fileId) else None
    ensures r.Report? ==> r.filters.startDate == DateFilter(start) && r.filters.endDate == DateFilter(end)
  {
    if !Contains(modules, "Administrator") then AccessDenied
    else
      var fileId := if hasQuizFiles && choice.QuizFile? then Some(choice.fileId) else None;
      if start.Some? && end.Some? && After(start.value, end.value) then BadDateRange
      else Report(Filters(DateFilter(start), DateFilter(end), fileId))
  }

  /** Every picked date becomes a filter clause; the quiz does when one is picked and its id is not 0. */
  lemma ReportFilters(modules: string, hasQuizFiles: bool, choice: QuizChoice, start: Option<Date>, end: Option<Date>)
    requires OpenReport(modules, hasQuizFiles, choice, start, end).Report?
    ensures var f := OpenReport(modules, hasQuizFiles, choice, start, end).filters;
      && (Given(f, StartFilter) <==> start.Some?)
      && (Given(f, EndFilter) <==> end.Some?)
      && (Given(f, FileFilter) <==> hasQuizFiles && choice.QuizFile? && choice.fileId != 0)
      && (start.Some? && end.Some? ==> !After(start.value, end.value))
  {
  }

  // ---------------------------------------------------------------------
  // Ranking

  /** The medal of a place in the ranking. */
  function Medal(rank: nat): (r: string)
    ensures rank == 1 ==> r == "\U{1F947}"
    ensures rank == 2 ==> r == "\U{1F948}"
    ensures rank == 3 ==> r == "\U{1F949}"
    ensures !(1 <= rank <= 3) ==> r == "#" + NatToString(rank)
  {
    if rank == 1 then "\U{1F947}"
    else if rank == 2 then "\U{1F948}"
    else if rank == 3 then "\U{1F949}"
    else "#" + NatToString(rank)
  }

  /** Different places get different medals. */
  lemma MedalInjective(a: nat, b: nat)
    requires Medal(a) == Medal(b)
    ensures a == b
  {
    if !(1 <= a <= 3) && !(1 <= b <= 3) {
      assert NatToString(a) == Medal(a)[1..];
      assert NatToString(b) == Medal(b)[1..];
      ParseNatToString(a);
      ParseNatToString(b);
    }
  }

  // ---------------------------------------------------------------------
  // Evaluation names

  /**
   * The page's split of a stored evaluation name into the name and the date
   * text: at the first `' - '` when there is one, else at the first `'-'`.
   */
  function SplitEvaluationName(full: string): (r: (string, string))
    ensures Contains(full, " - ") ==> full == r.0 + " - " + r.1 && !Contains(r.0 + " -", " - ")
    ensures !Contains(full, " - ") && Contains(full, "-") ==> full == r.0 + "-" + r.1 && !Contains(r.0, "-")
    ensures !Contains(full, "-") ==> r == (full, "")
  {
    if Contains(full, " - ") then
      var parts := SplitOnce(full, " - ");
      assert " - "[..2] == " -";
      assert full[|parts[0]| + 1] == '-';
      ContainsChar(full, |parts[0]| + 1);
      (parts[0], parts[1])
    else if Contains(full, "-") then
      var parts := SplitOnce(full, "-");
      assert parts[0] + "-"[..0] == parts[0];
      (parts[0], parts[1])
    else
      (full, "")
  }

  /** Without a space, the split is at the first dash. */
  lemma SplitAtFirstDash(a: string, rest: string)
    requires !Contains(a, "-") && forall i :: 0 <= i < |rest| ==> rest[i] != ' '
    requires forall i :: 0 <= i < |a| ==> a[i] != ' '
    ensures SplitEvaluationName(a + "-" + rest) == (a, rest)
  {
    var full := a + "-" + rest;
    assert !Contains(full, " - ") by {
      NoSpaceNoSpacedDash(full);
    }
    ContainsInfix(a, "-", rest);
    var r := SplitEvaluationName(full);
    assert full == r.0 + "-" + r.1 && !Contains(r.0, "-");
    FirstDashUnique(a, rest, r.0, r.1);
  }

  lemma NoSpaceNoSpacedDash(s: string)
    requires forall i :: 0 <= i < |s| ==> s[i] != ' '
    ensures !Contains(s, " - ")
  {
    forall j | 0 <= j && j + 3 <= |s| ensures !OccursAt(s, " - ", j) {
      assert s[j..j + 3][0] == s[j];
    }
    ContainsIff(s, " - ");
  }

  /** Two ways of writing a text as dash-free text, a dash and a rest agree. */
  lemma FirstDashUnique(a: string, b: string, c: string, d: string)
    requires a + "-" + b == c + "-" + d
    requires !Contains(a, "-") && !Contains(c, "-")
    ensures a == c && b == d
  {
    var s := a + "-" + b;
    if |a| < |c| {
      assert c[|a|] == s[|a|] == '-';
      ContainsChar(c, |a|);
    } else if |c| < |a| {
      assert a[|c|] == s[|c|] == '-';
      ContainsChar(a, |c|);
    }
    assert a == s[..|a|] == c;
    assert b == s[|a| + 1..] == d;
  }

  lemma ContainsChar(s: string, i: nat)
    requires i < |s| && s[i] == '-'
    ensures Contains(s, "-")
  {
    assert OccursAt(s, "-", i);
    ContainsIff(s, "-");
  }

  /** The date written at the end of a stored name: every character after the LAST dash. */
  function LastDash(s: string): (r: Option<nat>)
    ensures r.Some? ==> r.value < |s| && s[r.value] == '-' && forall i :: r.value < i < |s| ==> s[i] != '-'
    ensures r.None? ==> forall i :: 0 <= i < |s| ==> s[i] != '-'
  {
    if s == [] then None
    else if s[|s| - 1] == '-' then Some(|s| - 1)
    else LastDash(s[..|s| - 1])
  }

  /** The intended split: the name is everything before the last dash, the date everything after it. */
  function SplitEvaluationNameAtLast(full: string): (r: (string, string))
    ensures LastDash(full).Some? ==> full == r.0 + "-" + r.1 && forall i :: 0 <= i < |r.1| ==> r.1[i] != '-'
    ensures LastDash(full).None? ==> r == (full, "")
  {
    match LastDash(full)
    case None => (full, "")
    case Some(i) =>
      assert full == full[..i] + "-" + full[i + 1..];
      (full[..i], full[i + 1..])
  }

  /** The stored name `name-stamp` splits back into the typed name and the stamp, dashes in the name or not. */
  lemma SplitEvaluationNameRoundTrip(input: string, stamp: string)
    requires AllDigits(stamp)
    ensures var ms := if |stamp| >= 3 then stamp[..|stamp| - 3] else "";
      SplitEvaluationNameAtLast(QuizSelect.EvaluationName(input, stamp)) == (Strip(input), ms)
  {
    var ms := if |stamp| >= 3 then stamp[..|stamp| - 3] else "";
    var full := QuizSelect.EvaluationName(input, stamp);
    assert full == Strip(input) + "-" + ms;
    assert forall i :: 0 <= i < |ms| ==> ms[i] != '-' by {
      forall i | 0 <= i < |ms| ensures ms[i] != '-' {
        assert ms[i] == stamp[i];
      }
    }
    LastDashOf(Strip(input), ms);
    assert full[..|Strip(input)|] == Strip(input);
    assert full[|Strip(input)| + 1..] == ms;
  }

  /** The last dash of `x-ms` is the one before `ms` when `ms` has none. */
  lemma {:induction false} LastDashOf(x: string, ms: string)
    requires forall i :: 0 <= i < |ms| ==> ms[i] != '-'
    ensures LastDash(x + "-" + ms) == Some(|x|)
    decreases |ms|
  {
    var s := x + "-" + ms;
    if ms != [] {
      var shorter := ms[..|ms| - 1];
      assert s[|s| - 1] == ms[|ms| - 1];
      assert s[..|s| - 1] == x + "-" + shorter;
      LastDashOf(x, shorter);
    }
  }

  /**
   * A name typed with a dash (`quiz-2`, say) is cut at that dash: the page
   * shows only the part before it, and takes the rest as part of the date,
   * where the intended caption keeps the whole name.
   */
  lemma HyphenatedNameSplitEarly(a: string, b: string, stamp: string)
    requires a != [] && b != [] && a[0] !in Whitespace && b[|b| - 1] !in Whitespace
    requires forall i :: 0 <= i < |a| ==> a[i] != '-' && a[i] != ' '
    requires forall i :: 0 <= i < |b| ==> b[i] != ' '
    requires |stamp| >= 3 && AllDigits(stamp)
    ensures SplitEvaluationName(QuizSelect.EvaluationName(a + "-" + b, stamp)) == (a, b + "-" + stamp[..|stamp| - 3])
    ensures SplitEvaluationNameAtLast(QuizSelect.EvaluationName(a + "-" + b, stamp)).0 == a + "-" + b
    ensures EvaluationCaptionAsWritten(QuizSelect.EvaluationName(a + "-" + b, stamp))
         == (a, FormatEvaluationDate(b + "-" + stamp[..|stamp| - 3]))
    ensures EvaluationCaption(QuizSelect.EvaluationName(a + "-" + b, stamp)).0 == a + "-" + b
  {
    var ms := stamp[..|stamp| - 3];
    StripUntouched(a + "-" + b);
    assert QuizSelect.EvaluationName(a + "-" + b, stamp) == a + "-" + (b + "-" + ms);
    assert !Contains(a, "-") by {
      forall j | 0 <= j && j + 1 <= |a| ensures !OccursAt(a, "-", j) {
        assert a[j..j + 1][0] == a[j];
      }
      ContainsIff(a, "-");
    }
    var rest := b + "-" + ms;
    assert forall i :: 0 <= i < |rest| ==> rest[i] != ' ' by {
      forall i | 0 <= i < |rest| ensures rest[i] != ' ' {
        if i < |b| { assert rest[i] == b[i]; }
        else if i > |b| { assert rest[i] == ms[i - |b| - 1]; }
      }
    }
    SplitAtFirstDash(a, rest);
    SplitEvaluationNameRoundTrip(a + "-" + b, stamp);
  }

  /** A text that neither starts nor ends with whitespace is its own strip. */
  lemma StripUntouched(s: string)
    requires s != [] && s[0] !in Whitespace && s[|s| - 1] !in Whitespace
    ensures Strip(s) == s
  {
    assert TrimLeft(s, Whitespace) == s;
  }

  // ---------------------------------------------------------------------
  // Dates

  predicate IsLeap(y: nat) {
    y % 4 == 0 && (y % 100 != 0 || y % 400 == 0)
  }

  function DaysIn(y: nat, m: nat): nat {
    if m == 2 then (if IsLeap(y) then 29 else 28)
    else if m == 4 || m == 6 || m == 9 || m == 11 then 30
    else 31
  }

  predicate AllDigits(s: string) {
    forall i :: 0 <= i < |s| ==> IsDigit(s[i])
  }

  /** The number written by the digits `d[i..j]`. */
  function Field(d: string, i: nat, j: nat): nat
    requires i <= j <= |d| && AllDigits(d)
  {
    ParseNat(d[i..j])
  }

  /** `datetime.strptime(d[:8], '%Y%m%d')` succeeds. */
  predicate ValidDay(d: string)
    requires |d| >= 8 && AllDigits(d)
  {
    var y, m, day := Field(d, 0, 4), Field(d, 4, 6), Field(d, 6, 8);
    y >= 1 && 1 <= m <= 12 && 1 <= day <= DaysIn(y, m)
  }

  /** `datetime.strptime(d[:14], '%Y%m%d%H%M%S')` succeeds (a second of 60 or 61 is refused by `datetime`). */
  predicate ValidMoment(d: string)
    requires |d| >= 14 && AllDigits(d)
  {
    ValidDay(d) && Field(d, 8, 10) <= 23 && Field(d, 10, 12) <= 59 && Field(d, 12, 14) <= 59
  }

  /** `strftime('%d/%m/%Y')` of the parsed day: the same digits, rearranged. */
  function DayText(d: string): string
    requires |d| >= 8
  {
    d[6..8] + "/" + d[4..6] + "/" + d[0..4]
  }

  /**
   * The caption date: the first 14 digits as `dd/mm/YYYY HH:MM:SS`, or the
   * first 8 as `dd/mm/YYYY`, or the digits themselves when there are fewer or
   * they do not make a valid date.
   */
  function FormatEvaluationDate(dateText: string): (r: string)
    ensures var d := DigitsOf(dateText);
      && (|d| >= 14 && ValidMoment(d) ==>
            (|r| == 19 && r[..10] == DayText(d) && r[10] == ' '
             && r[11..13] == d[8..10] && r[13] == ':' && r[14..16] == d[10..12] && r[16] == ':' && r[17..] == d[12..14]))
      && (8 <= |d| < 14 && ValidDay(d) ==> r == DayText(d))
      && (|d| >= 14 && !ValidMoment(d) ==> r == d)
      && (|d| < 8 || (|d| < 14 && !ValidDay(d)) ==> r == d)
  {
    var d := DigitsOf(dateText);
    if |d| >= 14 then
      if ValidMoment(d) then DayText(d) + " " + d[8..10] + ":" + d[10..12] + ":" + d[12..14] else d
    else if |d| >= 8 then
      if ValidDay(d) then DayText(d) else d
    else d
  }

  /** The shown date only rearranges the digits of the date text: it keeps them all, or the first 14 or 8. */
  lemma FormattedDigits(dateText: string)
    ensures var d := DigitsOf(dateText);
      var r := FormatEvaluationDate(dateText);
      DigitsOf(r) == d
      || (|d| >= 14 && DigitsOf(r) == d[6..8] + d[4..6] + d[0..4] + d[8..14])
      || (8 <= |d| < 14 && DigitsOf(r) == d[6..8] + d[4..6] + d[0..4])
  {
    var d := DigitsOf(dateText);
    DigitsOfAllDigits(d);
    if |d| >= 8 {
      DayTextDigits(d);
      if |d| >= 14 && ValidMoment(d) {
        MomentDigits(d);
      }
    }
  }

  lemma DayTextDigits(d: string)
    requires |d| >= 8 && AllDigits(d)
    ensures DigitsOf(DayText(d)) == d[6..8] + d[4..6] + d[0..4]
  {
    var x, y, z := d[6..8], d[4..6], d[0..4];
    SliceDigits(d, 6, 8);
    SliceDigits(d, 4, 6);
    SliceDigits(d, 0, 4);
    GlueDigits(x, '/', y);
    GlueDigits(x + "/" + y, '/', z);
  }

  lemma MomentDigits(d: string)
    requires |d| >= 14 && AllDigits(d)
    ensures DigitsOf(DayText(d) + " " + d[8..10] + ":" + d[10..12] + ":" + d[12..14])
      == d[6..8] + d[4..6] + d[0..4] + d[8..14]
  {
    var h, m, sec := d[8..10], d[10..12], d[12..14];
    DayTextDigits(d);
    SliceDigits(d, 8, 10);
    SliceDigits(d, 10, 12);
    SliceDigits(d, 12, 14);
    GlueDigits(DayText(d), ' ', h);
    GlueDigits(DayText(d) + " " + h, ':', m);
    GlueDigits(DayText(d) + " " + h + ":" + m, ':', sec);
    assert d[8..14] == h + m + sec;
  }

  /** A separator that is not a digit drops out. */
  lemma GlueDigits(a: string, c: char, b: string)
    requires !IsDigit(c)
    ensures DigitsOf(a + [c] + b) == DigitsOf(a) + DigitsOf(b)
  {
    DigitsOfAppend(a + [c], b);
    DigitsOfAppend(a, [c]);
    assert DigitsOf([c]) == [] by {
      assert [c][1..] == [];
    }
  }

  /** A ranking entry's caption as the page writes it: the name and date of the first-dash split. */
  function EvaluationCaptionAsWritten(full: string): (r: (string, string))
    ensures r.0 == SplitEvaluationName(full).0
    ensures r.1 == FormatEvaluationDate(SplitEvaluationName(full).1)
  {
    var parts := SplitEvaluationName(full);
    (parts.0, FormatEvaluationDate(parts.1))
  }

  /** A ranking entry's caption as intended: the typed name and its readable start time, split at the last dash. */
  function EvaluationCaption(full: string): (r: (string, string))
    ensures r.0 == SplitEvaluationNameAtLast(full).0
    ensures r.1 == FormatEvaluationDate(SplitEvaluationNameAtLast(full).1)
  {
    var parts := SplitEvaluationNameAtLast(full);
    (parts.0, FormatEvaluationDate(parts.1))
  }

  /**
   * A stored name, made from a 20-digit `%Y%m%d%H%M%S%f` stamp cut to its
   * first 17 digits, is captioned with the typed name and that 17-digit
   * text, which `FormatEvaluationDate` shows to the second from its first
   * 14 digits when they are a valid time.
   */
  lemma CaptionOfStoredName(input: string, stamp: string)
    requires |stamp| == 20 && AllDigits(stamp)
    ensures var c := EvaluationCaption(QuizSelect.EvaluationName(input, stamp));
      c == (Strip(input), FormatEvaluationDate(stamp[..17]))
  {
    SplitEvaluationNameRoundTrip(input, stamp);
  }

  lemma SliceDigits(d: string, i: nat, j: nat)
    requires i <= j <= |d| && AllDigits(d)
    ensures DigitsOf(d[i..j]) == d[i..j]
  {
    DigitsOfAllDigits(d[i..j]);
  }
}
