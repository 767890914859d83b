/** `process_exam_date` (cors/spiders/cors_spider.py:17-28) together with
    the part of Python's `datetime.date` it relies on: construction from
    year, month and day, and `isoformat()`. */
module ExamDates {
  import opened Wrappers
  import opened Strings
  import opened Numerals

  /** What `process_exam_date` returns: the dict
      `{'date': <ISO date>, 'time': <label>}`, or a string. */
  datatype ExamInfo = ExamDate(date: string, time: string) | ExamText(text: string)

  /** A `datetime.date` value. */
  datatype Date = Date(year: int, month: int, day: int)

  /** `date()` reads its arguments as C `int`s. */
  const IntMin: int := -0x8000_0000
  const IntMax: int := 0x7fff_ffff

  predicate InCInt(n: int)
  {
    IntMin <= n <= IntMax
  }

  /** The Gregorian leap-year rule. */
  predicate IsLeap(y: int)
  {
    y % 4 == 0 && (y % 100 != 0 || y % 400 == 0)
  }

  function DaysInMonth(y: int, m: int): (n: int)
    requires 1 <= m <= 12
    ensures 28 <= n <= 31
    ensures m == 2 ==> (n == 29 <==> IsLeap(y))
  {
    if m == 2 then (if IsLeap(y) then 29 else 28)
    else if m == 4 || m == 6 || m == 9 || m == 11 then 30
    else 31
  }

  /** The dates `datetime.date` accepts: years 1 to 9999. */
  predicate ValidDate(y: int, m: int, d: int)
  {
    1 <= y <= 9999 && 1 <= m <= 12 && 1 <= d <= DaysInMonth(y, m)
  }

  /** `date(y, m, d)`: an argument outside the C `int` range raises
      OverflowError before any check of the calendar; a date that does
      not exist raises ValueError. */
  function MakeDate(y: int, m: int, d: int): (r: Result<Date, PyError>)
    ensures r.Success? <==> ValidDate(y, m, d)
    ensures r.Success? ==> r.value == Date(y, m, d)
    ensures r.Failure? ==>
              (r.error == OverflowError <==> !(InCInt(y) && InCInt(m) && InCInt(d)))
    ensures r.Failure? ==> r.error == OverflowError || r.error == ValueError
  {
    if !(InCInt(y) && InCInt(m) && InCInt(d)) then Failure(OverflowError)
    else if !ValidDate(y, m, d) then Failure(ValueError)
    else Success(Date(y, m, d))
  }

  /** `date.isoformat()`: `'%04d-%02d-%02d'`. */
  function IsoFormat(dt: Date): string
    requires ValidDate(dt.year, dt.month, dt.day)
  {
    ShowPadded(dt.year, 4) + "-" + ShowPadded(dt.month, 2) + "-" + ShowPadded(dt.day, 2)
  }

  /** `date(int(d[2]), int(d[1]), int(d[0]))`: the arguments are read
      left to right, so the year is read first, and a piece that is not a
      numeral raises ValueError before `date` is called. */
  function ReadDate(d: seq<string>): (r: Result<Date, PyError>)
    requires |d| >= 3
    ensures r.Success? ==>
              ParseInt(d[2]) == Success(r.value.year) &&
              ParseInt(d[1]) == Success(r.value.month) &&
              ParseInt(d[0]) == Success(r.value.day) &&
              ValidDate(r.value.year, r.value.month, r.value.day)
    ensures r.Failure? ==> r.error == OverflowError || r.error == ValueError
  {
    match ParseInt(d[2])
    case Failure(e) => Failure(e)
    case Success(y) =>
      match ParseInt(d[1])
      case Failure(e) => Failure(e)
      case Success(m) =>
        match ParseInt(d[0])
        case Failure(e) => Failure(e)
        case Success(day) => MakeDate(y, m, day)
  }

  /** `process_exam_date(exam)`. Only IndexError is caught: an input with
      no token, a first token with fewer than three `-` parts, or a valid
      date with no second token gives back the input; a first token whose
      three parts are not a valid date raises. */
  function ProcessExamDate(exam: string): (r: Result<ExamInfo, PyError>)
    ensures r.Success? && r.value.ExamText? ==> r.value.text == exam
    ensures r.Success? && r.value.ExamDate? ==> |Split(exam)| >= 2 && r.value.time == Split(exam)[1]
    ensures r.Failure? ==> r.error == OverflowError || r.error == ValueError
  {
    var t := Split(exam);
    if t == [] then Success(ExamText(exam))
    else
      var d := SplitOn(t[0], '-');
      if |d| < 3 then Success(ExamText(exam))
      else
        match ReadDate(d)
        case Failure(e) => Failure(e)
        case Success(dt) =>
          if |t| < 2 then Success(ExamText(exam))
          else Success(ExamDate(IsoFormat(dt), t[1]))
  }

  // ---------------------------------------------------------------------
  // Properties
  // ---------------------------------------------------------------------

  /** The input comes back unchanged exactly when there is no token, the
      first token has fewer than three `-` parts, or it holds a valid date
      but no time token follows. */
  lemma {:induction false} ExamFallback(exam: string)
    ensures ProcessExamDate(exam) == Success(ExamText(exam)) <==>
              (|Split(exam)| == 0 ||
               |SplitOn(Split(exam)[0], '-')| < 3 ||
               (|Split(exam)| == 1 && ReadDate(SplitOn(Split(exam)[0], '-')).Success?))
  {
  }

  /** `process_exam_date` raises exactly when the first token has three
      `-` parts that do not read as a valid date, whether or not a time
      token follows. */
  lemma {:induction false} ExamRaises(exam: string)
    ensures ProcessExamDate(exam).Failure? <==>
              (|Split(exam)| >= 1 &&
               |SplitOn(Split(exam)[0], '-')| >= 3 &&
               ReadDate(SplitOn(Split(exam)[0], '-')).Failure?)
  {
  }

  /** When the first token has three `-` parts reading as a valid date
      and a second token follows, the result is that date in ISO form
      with the second token as its label. */
  lemma {:induction false} ExamReads(exam: string, y: int, m: int, d: int)
    requires |Split(exam)| >= 2 && |SplitOn(Split(exam)[0], '-')| >= 3
    requires ParseInt(SplitOn(Split(exam)[0], '-')[2]) == Success(y)
    requires ParseInt(SplitOn(Split(exam)[0], '-')[1]) == Success(m)
    requires ParseInt(SplitOn(Split(exam)[0], '-')[0]) == Success(d)
    requires ValidDate(y, m, d)
    ensures ProcessExamDate(exam) == Success(ExamDate(IsoFormat(Date(y, m, d)), Split(exam)[1]))
  {
  }

  /** For a day, month and year written in digits (with or without
      leading zeros) that form a valid date, `"D-M-Y T"` becomes the ISO
      date and the label `T`. */
  lemma {:induction false} ExamDateParsed(ds: string, ms: string, ys: string, time: string)
    requires IsDigits(ds) && IsDigits(ms) && IsDigits(ys) && IsWord(time)
    requires ValidDate(DigitsValue(ys), DigitsValue(ms), DigitsValue(ds))
    ensures ProcessExamDate(ds + "-" + ms + "-" + ys + " " + time) ==
              Success(ExamDate(IsoFormat(Date(DigitsValue(ys), DigitsValue(ms), DigitsValue(ds))), time))
  {
    var tok := ds + "-" + ms + "-" + ys;
    assert [ds, ms, ys] + [] == [ds, ms, ys];
    DateToken(ds, ms, ys, []);
    JoinThree(ds, ms, ys, "-");
    SplitTwo(tok, time);
    ParseDigits(ds);
    ParseDigits(ms);
    ParseDigits(ys);
    ExamReads(tok + " " + time, DigitsValue(ys), DigitsValue(ms), DigitsValue(ds));
  }

  /** Numerals that do not form a valid date raise ValueError (or
      OverflowError beyond the C `int` range) rather than giving back the
      input: `"31-02-2013 AM"` raises. */
  lemma {:induction false} ExamInvalidDate(ds: string, ms: string, ys: string, time: string)
    requires IsDigits(ds) && IsDigits(ms) && IsDigits(ys) && IsWord(time)
    requires !ValidDate(DigitsValue(ys), DigitsValue(ms), DigitsValue(ds))
    ensures ProcessExamDate(ds + "-" + ms + "-" + ys + " " + time) ==
              Failure(if DigitsValue(ys) <= IntMax && DigitsValue(ms) <= IntMax && DigitsValue(ds) <= IntMax
                      then ValueError else OverflowError)
  {
    var tok := ds + "-" + ms + "-" + ys;
    assert [ds, ms, ys] + [] == [ds, ms, ys];
    DateToken(ds, ms, ys, []);
    JoinThree(ds, ms, ys, "-");
    SplitTwo(tok, time);
    ParseDigits(ds);
    ParseDigits(ms);
    ParseDigits(ys);
    var d := [ds, ms, ys];
    assert ReadDate(d) == MakeDate(DigitsValue(ys), DigitsValue(ms), DigitsValue(ds));
    InvalidDateError(DigitsValue(ys), DigitsValue(ms), DigitsValue(ds));
    ExamReadFails(tok + " " + time);
  }

  /** The error `date()` raises for non-negative arguments that do not
      form a valid date. */
  lemma {:induction false} InvalidDateError(y: nat, m: nat, d: nat)
    requires !ValidDate(y, m, d)
    ensures MakeDate(y, m, d) ==
              Failure(if y <= IntMax && m <= IntMax && d <= IntMax then ValueError else OverflowError)
  {
  }

  lemma {:induction false} ExamReadFails(exam: string)
    requires |Split(exam)| >= 1 && |SplitOn(Split(exam)[0], '-')| >= 3
    requires ReadDate(SplitOn(Split(exam)[0], '-')).Failure?
    ensures ProcessExamDate(exam) == Failure(ReadDate(SplitOn(Split(exam)[0], '-')).error)
  {
  }

  lemma {:induction false} JoinThree(a: string, b: string, c: string, sep: string)
    ensures Join([a, b, c], sep) == a + sep + b + sep + c
  {
    assert [a, b, c][1..] == [b, c];
    assert [b, c][1..] == [c];
    assert Join([b, c], sep) == b + sep + c;
    assert a + sep + (b + sep + c) == a + sep + b + sep + c;
  }

  lemma {:induction false} SplitTwo(a: string, b: string)
    requires IsWord(a) && IsWord(b)
    ensures Split(a + " " + b) == [a, b]
  {
    assert [a, b][1..] == [b];
    assert Join([a, b], " ") == a + " " + b;
    SplitJoin([a, b]);
  }

  /** A numeral is a word without `-`. */
  lemma {:induction false} DigitWord(s: string)
    requires IsDigits(s)
    ensures IsWord(s) && '-' !in s
  {
    forall i | 0 <= i < |s| ensures !IsSpace(s[i]) {
      DigitIsNotSpace(s[i]);
    }
  }

  /** Words none of which contains `-`. */
  predicate DashFree(ps: seq<string>)
  {
    forall i :: 0 <= i < |ps| ==> IsWord(ps[i]) && '-' !in ps[i]
  }

  lemma {:induction false} DashFreeAppend(a: seq<string>, b: seq<string>)
    requires DashFree(a) && DashFree(b)
    ensures DashFree(a + b)
  {
    forall i | 0 <= i < |a + b| ensures IsWord((a + b)[i]) && '-' !in (a + b)[i] {
      if i < |a| {
        assert (a + b)[i] == a[i];
      } else {
        assert (a + b)[i] == b[i - |a|];
      }
    }
  }

  /** Words without `-` joined by `-` form one word, and splitting it on
      `-` gives the pieces back. */
  lemma {:induction false} DashPieces(ps: seq<string>)
    requires ps != [] && DashFree(ps)
    ensures IsWord(Join(ps, "-"))
    ensures SplitOn(Join(ps, "-"), '-') == ps
  {
    SpaceRanges('-');
    JoinWords(ps, '-');
    SplitOnJoin(ps, '-');
  }

  /** A token made of three numerals and further words without `-`, joined
      by `-`, is a word, and splitting it on `-` gives the pieces back. */
  lemma {:induction false} DateToken(ds: string, ms: string, ys: string, extra: seq<string>)
    requires IsDigits(ds) && IsDigits(ms) && IsDigits(ys) && DashFree(extra)
    ensures IsWord(Join([ds, ms, ys] + extra, "-"))
    ensures SplitOn(Join([ds, ms, ys] + extra, "-"), '-') == [ds, ms, ys] + extra
  {
    DigitWord(ds);
    DigitWord(ms);
    DigitWord(ys);
    assert DashFree([ds, ms, ys]);
    DashFreeAppend([ds, ms, ys], extra);
    DashPieces([ds, ms, ys] + extra);
  }

  /** Words joined by a separator that is not whitespace form one word. */
  lemma {:induction false} JoinWords(ws: seq<string>, c: char)
    requires ws != [] && !IsSpace(c)
    requires forall i :: 0 <= i < |ws| ==> IsWord(ws[i])
    ensures IsWord(Join(ws, [c]))
  {
    if |ws| > 1 {
      JoinWords(ws[1..], c);
      var j := ws[0] + [c] + Join(ws[1..], [c]);
      assert Join(ws, [c]) == j;
      forall k | 0 <= k < |j| ensures !IsSpace(j[k]) {
        if k < |ws[0]| {
          assert j[k] == ws[0][k];
        } else if k > |ws[0]| {
          assert j[k] == Join(ws[1..], [c])[k - |ws[0]| - 1];
        }
      }
    }
  }

  /** `-` parts after the year are ignored, and so are tokens after the
      time label: only the first three parts of the first token and the
      second token are read. */
  lemma {:induction false} ExamIgnoresExtras(ds: string, ms: string, ys: string, extra: seq<string>,
                          time: string, rest: seq<string>)
    requires IsDigits(ds) && IsDigits(ms) && IsDigits(ys) && IsWord(time) && AllWords(rest)
    requires ValidDate(DigitsValue(ys), DigitsValue(ms), DigitsValue(ds))
    requires DashFree(extra)
    ensures ProcessExamDate(Join([Join([ds, ms, ys] + extra, "-"), time] + rest, " ")) ==
            ProcessExamDate(ds + "-" + ms + "-" + ys + " " + time)
  {
    ExamLong(ds, ms, ys, extra, time, rest);
    ExamDateParsed(ds, ms, ys, time);
  }

  /** The long form reads as the date of its first three parts and the
      label of its second token. */
  lemma {:induction false} ExamLong(ds: string, ms: string, ys: string, extra: seq<string>,
                                    time: string, rest: seq<string>)
    requires IsDigits(ds) && IsDigits(ms) && IsDigits(ys) && IsWord(time) && AllWords(rest)
    requires ValidDate(DigitsValue(ys), DigitsValue(ms), DigitsValue(ds))
    requires DashFree(extra)
    ensures ProcessExamDate(Join([Join([ds, ms, ys] + extra, "-"), time] + rest, " ")) ==
            Success(ExamDate(IsoFormat(Date(DigitsValue(ys), DigitsValue(ms), DigitsValue(ds))), time))
  {
    var long := Join([ds, ms, ys] + extra, "-");
    DateToken(ds, ms, ys, extra);
    LeadingWords(long, time, rest);
    var exam := Join([long, time] + rest, " ");
    assert Split(exam)[0] == long && Split(exam)[1] == time;
    ParseDigits(ds);
    ParseDigits(ms);
    ParseDigits(ys);
    ExamReads(exam, DigitsValue(ys), DigitsValue(ms), DigitsValue(ds));
  }

  /** Two words followed by more words split back into the same list. */
  lemma {:induction false} LeadingWords(a: string, b: string, rest: seq<string>)
    requires IsWord(a) && IsWord(b) && AllWords(rest)
    ensures Split(Join([a, b] + rest, " ")) == [a, b] + rest
  {
    var ws := [a, b] + rest;
    forall i | 0 <= i < |ws| ensures IsWord(ws[i]) {
      if i >= 2 {
        assert ws[i] == rest[i - 2];
      }
    }
    SplitJoin(ws);
  }

  /** The ISO form of a valid date splits on `-` into the zero-padded
      year, month and day, which read back as the date. */
  lemma {:induction false} IsoFormatReads(dt: Date)
    requires ValidDate(dt.year, dt.month, dt.day)
    ensures SplitOn(IsoFormat(dt), '-') ==
              [ShowPadded(dt.year, 4), ShowPadded(dt.month, 2), ShowPadded(dt.day, 2)]
    ensures ParseInt(ShowPadded(dt.year, 4)) == Success(dt.year)
    ensures ParseInt(ShowPadded(dt.month, 2)) == Success(dt.month)
    ensures ParseInt(ShowPadded(dt.day, 2)) == Success(dt.day)
  {
    var ys, ms, ds := ShowPadded(dt.year, 4), ShowPadded(dt.month, 2), ShowPadded(dt.day, 2);
    DigitWord(ys);
    DigitWord(ms);
    DigitWord(ds);
    JoinThree(ys, ms, ds, "-");
    SplitOnJoin([ys, ms, ds], '-');
    ParsePadded(dt.year, 4);
    ParsePadded(dt.month, 2);
    ParsePadded(dt.day, 2);
  }

  /** The string `'null'`, which stands for a missing exam, comes back
      unchanged. */
  lemma {:induction false} NullExam()
    ensures ProcessExamDate("null") == Success(ExamText("null"))
  {
    SpaceRanges('n');
    SpaceRanges('u');
    SpaceRanges('l');
    SplitWord("null");
    assert SplitOn("null", '-') == ["null"];
  }
}
