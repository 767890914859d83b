/** The field defaulting of `parse_module` (cors/spiders/cors_spider.py:160-202),
    on the text lists the page selectors have already extracted: an absent
    field becomes `u'null'`, text fields are stripped, whitespace-normalised
    or cleaned, the exam date is read, and the two timetables are parsed. */
module ModulePage {
  import opened Wrappers
  import opened Strings
  import opened Cleaning
  import opened ExamDates
  import opened TimetableParser

  /** What the selectors extract from a module page: each field is a list
      of text nodes, empty when the page has none. */
  datatype Page = Page(code: seq<string>, name: seq<string>, desc: seq<string>,
                       mc: seq<string>, lecture: seq<string>, tutorials: seq<string>,
                       exam: seq<string>, prereq: seq<string>, preclu: seq<string>,
                       workload: seq<string>)

  /** The item the spider returns. */
  datatype Item = Item(code: string, name: string, desc: string, mc: string,
                       lectureTimeTable: Timetable, tutorialTimeTable: Timetable,
                       exam: ExamInfo, prerequisite: string, preclusion: string,
                       workload: string)

  const Null: string := "null"
  const NoExamDate: string := "No Exam Date."

  /** The module code: the words of the first text node, in order, joined
      by single spaces. */
  function CodeField(xs: seq<string>): (r: string)
    ensures xs == [] ==> r == Null
    ensures xs != [] ==> Split(r) == Split(xs[0]) && SingleSpaced(r)
  {
    if xs == [] then Null
    else
      var ws := Split(xs[0]);
      SplitJoin(ws);
      JoinSingleSpaced(ws);
      Join(ws, " ")
  }

  /** A field that is the first text node with surrounding whitespace
      removed: a slice of it, cut only at whitespace, so the whitespace
      inside is kept as it is. */
  function StripField(xs: seq<string>): (r: string)
    ensures xs == [] ==> r == Null
    ensures xs != [] ==> exists i, j :: 0 <= i <= j <= |xs[0]| && r == xs[0][i..j] &&
                                      AllSpace(xs[0][..i]) && AllSpace(xs[0][j..])
    ensures xs != [] ==> Strip(r) == r && Split(r) == Split(xs[0])
  {
    if xs == [] then Null
    else
      StripIdempotent(xs[0]);
      StripWords(xs[0]);
      Strip(xs[0])
  }

  /** A field that is the first text node, cleaned. */
  function CleanField(xs: seq<string>): (r: string)
    ensures xs == [] ==> r == Null
    ensures xs != [] ==> IsAscii(r) && SingleSpaced(r) && Split(r) == EscapeAll(Split(xs[0]))
  {
    if xs == [] then Null else Clean(xs[0])
  }

  /** The exam field: the first text node, stripped, or `u'null'`; the
      text `No Exam Date.` becomes `u'null'`, anything else goes through
      `process_exam_date`, which gives `u'null'` back unchanged. */
  function ExamField(xs: seq<string>): (r: Result<ExamInfo, PyError>)
    ensures xs == [] ==> r == Success(ExamText(Null))
    ensures xs != [] && Strip(xs[0]) == NoExamDate ==> r == Success(ExamText(Null))
    ensures xs != [] && Strip(xs[0]) != NoExamDate ==> r == ProcessExamDate(Strip(xs[0]))
  {
    var exam := if xs != [] then Strip(xs[0]) else Null;
    if exam != NoExamDate then
      NullExam();
      ProcessExamDate(exam)
    else
      Success(ExamText(Null))
  }

  /** A timetable field: the text nodes are stripped and parsed; an empty
      list gives `u'null'` without parsing (where `timeparse` itself would
      give an empty list). */
  function TableField(xs: seq<string>): (r: Result<Timetable, PyError>)
    ensures xs == [] ==> r == Success(NoSessions)
    ensures xs != [] ==> r == TimeParse(StripAll(xs))
  {
    var lines := StripAll(xs);
    if lines == [] then Success(NoSessions) else TimeParse(lines)
  }

  /** `parse_module` after the selectors: the exam date is read first, then
      the lecture and the tutorial tables, and the first of these to raise
      ends the call. */
  function ParseModule(p: Page): (r: Result<Item, PyError>)
    ensures r.Failure? <==>
              ExamField(p.exam).Failure? || TableField(p.lecture).Failure? ||
              TableField(p.tutorials).Failure?
    ensures ExamField(p.exam).Failure? ==> r == Failure(ExamField(p.exam).error)
    ensures ExamField(p.exam).Success? && TableField(p.lecture).Failure? ==>
              r == Failure(TableField(p.lecture).error)
    ensures ExamField(p.exam).Success? && TableField(p.lecture).Success? &&
            TableField(p.tutorials).Failure? ==>
              r == Failure(TableField(p.tutorials).error)
    ensures r.Success? ==>
              r.value.exam == ExamField(p.exam).value &&
              r.value.lectureTimeTable == TableField(p.lecture).value &&
              r.value.tutorialTimeTable == TableField(p.tutorials).value
    ensures r.Success? ==>
              r.value.code == CodeField(p.code) && r.value.name == StripField(p.name) &&
              r.value.desc == CleanField(p.desc) && r.value.mc == StripField(p.mc) &&
              r.value.prerequisite == CleanField(p.prereq) &&
              r.value.preclusion == CleanField(p.preclu) &&
              r.value.workload == StripField(p.workload)
  {
    match ExamField(p.exam)
    case Failure(e) => Failure(e)
    case Success(exam) =>
      match TableField(p.lecture)
      case Failure(e) => Failure(e)
      case Success(lecture) =>
        match TableField(p.tutorials)
        case Failure(e) => Failure(e)
        case Success(tutorials) =>
          Success(Item(CodeField(p.code), StripField(p.name), CleanField(p.desc),
                       StripField(p.mc), lecture, tutorials, exam,
                       CleanField(p.prereq), CleanField(p.preclu), StripField(p.workload)))
  }

  // ---------------------------------------------------------------------
  // Properties
  // ---------------------------------------------------------------------

  /** A page with no text at all gives an item whose every field is
      `u'null'`. */
  lemma {:induction false} EmptyPage()
    ensures ParseModule(Page([], [], [], [], [], [], [], [], [], [])) ==
              Success(Item(Null, Null, Null, Null, NoSessions, NoSessions, ExamText(Null),
                           Null, Null, Null))
  {
  }
}
