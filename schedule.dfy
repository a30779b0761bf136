/**
 * The workout schedule: stored as the chosen day numbers joined with ',',
 * read back with Split(",", RemoveEmptyEntries) and int.Parse.
 */
module Schedule {
  import opened Wrappers
  import opened Numerics
  import opened Calendar

  function IndexOf(s: string, c: char): (i: nat)
    requires c in s
    ensures i < |s| && s[i] == c && c !in s[..i]
  {
    if s[0] == c then 0
    else
      var i := IndexOf(s[1..], c);
      assert s[1..][..i] == s[1..i + 1];
      1 + i
  }

  /** String.Split on one separator character: the pieces between separators, empty ones included. */
  function Split(s: string, sep: char): (pieces: seq<string>)
    ensures |pieces| >= 1
    ensures forall k :: 0 <= k < |pieces| ==> sep !in pieces[k]
    decreases |s|
  {
    if sep in s then
      var i := IndexOf(s, sep);
      [s[..i]] + Split(s[i + 1..], sep)
    else [s]
  }

  /** StringSplitOptions.RemoveEmptyEntries: the non-empty pieces, in order. */
  function RemoveEmptyEntries(pieces: seq<string>): (r: seq<string>)
    ensures forall k :: 0 <= k < |r| ==> r[k] != "" && r[k] in pieces
    ensures forall k :: 0 <= k < |pieces| && pieces[k] != "" ==> pieces[k] in r
    ensures |r| <= |pieces|
  {
    if pieces == [] then []
    else
      var rest := RemoveEmptyEntries(pieces[1..]);
      assert forall k :: 1 <= k < |pieces| ==> pieces[k] == pieces[1..][k - 1];
      if pieces[0] == "" then rest else [pieces[0]] + rest
  }

  /** string.Join with one separator character. */
  function Join(pieces: seq<string>, sep: char): string
  {
    if |pieces| == 0 then ""
    else if |pieces| == 1 then pieces[0]
    else pieces[0] + [sep] + Join(pieces[1..], sep)
  }

  /** The schedule's day pieces as stored: Split(",", RemoveEmptyEntries). */
  function SplitSchedule(schedule: string): (days: seq<string>)
    ensures forall k :: 0 <= k < |days| ==> days[k] != "" && ',' !in days[k]
  {
    RemoveEmptyEntries(Split(schedule, ','))
  }

  lemma SplitWithoutSeparator(x: string, sep: char)
    requires sep !in x
    ensures Split(x, sep) == [x]
  {
  }

  lemma {:induction false} IndexOfAfter(x: string, y: string, sep: char)
    requires sep !in x
    ensures sep in x + [sep] + y && IndexOf(x + [sep] + y, sep) == |x|
  {
    var s := x + [sep] + y;
    assert s[|x|] == sep;
    if x != [] {
      assert s[1..] == x[1..] + [sep] + y;
      IndexOfAfter(x[1..], y, sep);
    }
  }

  lemma SplitAfterFirstSeparator(x: string, y: string, sep: char)
    requires sep !in x
    ensures Split(x + [sep] + y, sep) == [x] + Split(y, sep)
  {
    var s := x + [sep] + y;
    IndexOfAfter(x, y, sep);
    assert s[..|x|] == x;
    assert s[|x| + 1..] == y;
  }

  /** Splitting a join gives the pieces back, provided no piece contains the separator. */
  lemma {:induction false} SplitJoin(pieces: seq<string>, sep: char)
    requires |pieces| >= 1
    requires forall k :: 0 <= k < |pieces| ==> sep !in pieces[k]
    ensures Split(Join(pieces, sep), sep) == pieces
    decreases |pieces|
  {
    if |pieces| == 1 {
      SplitWithoutSeparator(pieces[0], sep);
    } else {
      SplitJoin(pieces[1..], sep);
      SplitAfterFirstSeparator(pieces[0], Join(pieces[1..], sep), sep);
      assert [pieces[0]] + pieces[1..] == pieces;
    }
  }

  lemma {:induction false} RemoveEmptyKeepsNonEmpty(pieces: seq<string>)
    requires forall k :: 0 <= k < |pieces| ==> pieces[k] != ""
    ensures RemoveEmptyEntries(pieces) == pieces
  {
    if pieces != [] {
      RemoveEmptyKeepsNonEmpty(pieces[1..]);
      assert [pieces[0]] + pieces[1..] == pieces;
    }
  }

  /** The schedule stored at registration or update reads back as the days that were chosen. */
  lemma ScheduleRoundTrip(days: seq<string>)
    requires forall k :: 0 <= k < |days| ==> days[k] != "" && ',' !in days[k]
    ensures SplitSchedule(Join(days, ',')) == days
  {
    if days == [] {
      assert Split("", ',') == [""];
    } else {
      SplitJoin(days, ',');
      RemoveEmptyKeepsNonEmpty(days);
    }
  }

  /** Read-back is a normal form: storing what was read and reading again gives the same days. */
  lemma SplitScheduleIdempotent(schedule: string)
    ensures SplitSchedule(Join(SplitSchedule(schedule), ',')) == SplitSchedule(schedule)
  {
    ScheduleRoundTrip(SplitSchedule(schedule));
  }

  /** The white-space characters int.Parse skips around the number: tab through carriage return, and space. */
  predicate IsWhiteSpace(c: char) {
    c == ' ' || ('\t' <= c <= '\r')
  }

  predicate IsDigit(c: char) {
    '0' <= c <= '9'
  }

  predicate AllDigits(s: string) {
    forall k :: 0 <= k < |s| ==> IsDigit(s[k])
  }

  function TrimStartWhite(s: string): (t: string)
    ensures |t| <= |s| && t == s[|s| - |t|..]
    ensures |t| > 0 ==> !IsWhiteSpace(t[0])
  {
    if |s| > 0 && IsWhiteSpace(s[0]) then TrimStartWhite(s[1..]) else s
  }

  function TrimEndWhite(s: string): (t: string)
    ensures |t| <= |s| && t == s[..|t|]
    ensures |t| > 0 ==> !IsWhiteSpace(t[|t| - 1])
  {
    if |s| > 0 && IsWhiteSpace(s[|s| - 1]) then TrimEndWhite(s[..|s| - 1]) else s
  }

  /** The decimal value of a digit string. */
  function DigitsValue(s: string): (n: nat)
    requires AllDigits(s)
  {
    if s == [] then 0 else 10 * DigitsValue(s[..|s| - 1]) + (s[|s| - 1] as int - '0' as int)
  }

  /**
   * int.Parse with the default number style: optional surrounding white
   * space, an optional sign, at least one decimal digit, and a value within
   * the 32-bit range. None stands for the exception it throws otherwise.
   */
  function ParseInt32(s: string): (r: Option<int>)
    ensures r.Some? ==> Int32Min <= r.value <= Int32Max
  {
    ParseTrimmed(TrimEndWhite(TrimStartWhite(s)))
  }

  /** int.Parse on text with the surrounding white space already removed. */
  function ParseTrimmed(t: string): (r: Option<int>)
    ensures r.Some? ==> Int32Min <= r.value <= Int32Max
  {
    var signed := |t| > 0 && (t[0] == '-' || t[0] == '+');
    var digits := if signed then t[1..] else t;
    if |digits| == 0 || !AllDigits(digits) then None
    else
      var v: int := if signed && t[0] == '-' then -(DigitsValue(digits) as int) else DigitsValue(digits);
      if Int32Min <= v <= Int32Max then Some(v) else None
  }

  /** Select(int.Parse) over the pieces: every piece can be parsed, or the whole read fails. */
  function ParseAll(pieces: seq<string>): (r: Option<seq<int>>)
    ensures r.Some? <==> forall k :: 0 <= k < |pieces| ==> ParseInt32(pieces[k]).Some?
    ensures r.Some? ==> |r.value| == |pieces|
    ensures r.Some? ==> forall k :: 0 <= k < |pieces| ==> r.value[k] == ParseInt32(pieces[k]).value
  {
    var parsed := seq(|pieces|, k requires 0 <= k < |pieces| => ParseInt32(pieces[k]));
    assert forall k :: 0 <= k < |pieces| ==> parsed[k] == ParseInt32(pieces[k]);
    if forall k :: 0 <= k < |parsed| ==> parsed[k].Some? then
      Some(seq(|parsed|, k requires 0 <= k < |parsed| && parsed[k].Some? => parsed[k].value))
    else None
  }

  /** The user's training days as the dashboard reads them; None when some piece is not a number. */
  function TrainingDays(schedule: string): Option<seq<int>> {
    ParseAll(SplitSchedule(schedule))
  }

  /** Today's day number in the schedule: Monday = 1 through Sunday = 7. */
  function CurrentDayNumber(d: DayOfWeek): (n: int)
    ensures 1 <= n <= 7
    ensures n == 7 <==> d == Sunday
    ensures d != Sunday ==> n == DayOfWeekValue(d)
  {
    if d == Sunday then 7 else DayOfWeekValue(d)
  }

  /** Each day of the week has its own number. */
  lemma CurrentDayNumberInjective(a: DayOfWeek, b: DayOfWeek)
    ensures CurrentDayNumber(a) == CurrentDayNumber(b) <==> a == b
  {
  }

  /** The digit a schedule checkbox sends for a day number. */
  function DayString(day: int): (s: string)
    requires 0 <= day <= 9
    ensures |s| == 1 && IsDigit(s[0])
  {
    [('0' as int + day) as char]
  }

  lemma TrimsOfDigit(c: char)
    requires IsDigit(c)
    ensures TrimEndWhite(TrimStartWhite([c])) == [c]
  {
    assert !IsWhiteSpace(c);
    assert TrimStartWhite([c]) == [c];
  }

  lemma DigitsValueOfDigit(c: char)
    requires IsDigit(c)
    ensures AllDigits([c]) && DigitsValue([c]) == c as int - '0' as int
  {
    assert [c][..0] == [];
  }

  /** An unsigned digit string within range parses to its decimal value. */
  lemma ParseTrimmedDigits(t: string)
    requires |t| > 0 && AllDigits(t) && DigitsValue(t) <= Int32Max
    ensures ParseTrimmed(t) == Some(DigitsValue(t))
  {
    assert IsDigit(t[0]);
  }

  lemma ParseOfTrimmed(s: string)
    requires TrimEndWhite(TrimStartWhite(s)) == s
    ensures ParseInt32(s) == ParseTrimmed(s)
  {
  }

  /** A single digit parses to its value. */
  lemma ParseDigit(c: char)
    requires IsDigit(c)
    ensures ParseInt32([c]) == Some(c as int - '0' as int)
  {
    assert ParseInt32([c]) == ParseTrimmed([c]) by {
      TrimsOfDigit(c);
      ParseOfTrimmed([c]);
    }
    assert ParseTrimmed([c]) == Some(c as int - '0' as int) by {
      DigitsValueOfDigit(c);
      ParseTrimmedDigits([c]);
    }
  }

  lemma ParseDayString(day: int)
    requires 0 <= day <= 9
    ensures ParseInt32(DayString(day)) == Some(day)
  {
    var c := ('0' as int + day) as char;
    assert DayString(day) == [c];
    ParseDigit(c);
  }

  function DayStrings(days: seq<int>): (ss: seq<string>)
    requires forall k :: 0 <= k < |days| ==> 0 <= days[k] <= 9
    ensures |ss| == |days|
    ensures forall k :: 0 <= k < |days| ==> ss[k] == DayString(days[k])
  {
    seq(|days|, k requires 0 <= k < |days| => DayString(days[k]))
  }

  lemma ParseAllDayStrings(days: seq<int>)
    requires forall k :: 0 <= k < |days| ==> 0 <= days[k] <= 9
    ensures ParseAll(DayStrings(days)) == Some(days)
  {
    var ss := DayStrings(days);
    forall k | 0 <= k < |days| ensures ParseInt32(ss[k]) == Some(days[k]) {
      ParseDayString(days[k]);
    }
    var r := ParseAll(ss);
    assert r.Some?;
    assert r.value == days;
  }

  /** Days chosen at registration come back from the dashboard's read of the schedule. */
  lemma ChosenDaysReadBack(days: seq<int>)
    requires forall k :: 0 <= k < |days| ==> 1 <= days[k] <= 7
    ensures TrainingDays(Join(DayStrings(days), ',')) == Some(days)
  {
    ScheduleRoundTrip(DayStrings(days));
    ParseAllDayStrings(days);
  }
}
