/** The page layout `timeparse` is written for (the docstring of
    cors/spiders/cors_spider.py:57-87): each class is a heading line,
    then for each of its sessions a time line and an occurrence line,
    then any ballot notes. On such input it returns one entry per class,
    in order, with every session complete. */
module TimetableLayout {
  import opened Wrappers
  import opened Converters
  import opened Recognisers
  import opened Numerals
  import opened TimetableParser

  /** One session as it appears on the page: the groups of the time line
      and the text between `Week(s): ` and the first `.`. */
  datatype SessionLines = SessionLines(time: TimeMatch, weeks: string)

  /** One class: its heading, its sessions and the trailing note lines. */
  datatype Block = Block(heading: string, sessions: seq<SessionLines>, notes: seq<string>)

  function OccurText(g: string): string
  {
    WeekPrefix + g + "."
  }

  function SessionText(sl: SessionLines): seq<string>
  {
    [TimeText(sl.time), OccurText(sl.weeks)]
  }

  function SessionsText(ss: seq<SessionLines>): seq<string>
  {
    if ss == [] then [] else SessionsText(ss[..|ss| - 1]) + SessionText(ss[|ss| - 1])
  }

  function BlockText(b: Block): seq<string>
  {
    [b.heading] + SessionsText(b.sessions) + b.notes
  }

  function BlocksText(bs: seq<Block>): seq<string>
  {
    if bs == [] then [] else BlocksText(bs[..|bs| - 1]) + BlockText(bs[|bs| - 1])
  }

  // ---------------------------------------------------------------------
  // Which lines are well formed
  // ---------------------------------------------------------------------

  /** A time line the time pattern reads back, and an occurrence line
      whose week list `convert_occur` can read; neither says "no
      lectures". */
  predicate GoodSession(sl: SessionLines)
  {
    TimeGroups(sl.time) && !IsNoLecture(TimeText(sl.time)) &&
    '.' !in sl.weeks && '\n' !in sl.weeks &&
    ConvertOccur(sl.weeks).Success? && !IsNoLecture(OccurText(sl.weeks))
  }

  /** A note line: a ballot line that no other pattern matches. */
  predicate GoodNote(l: string)
  {
    IsBallot(l) && MatchTime(l).None? && MatchOccur(l).None? && !IsNoLecture(l)
  }

  /** Every session is well formed (read from the end, as `SessionsText`
      builds the lines). */
  predicate GoodSessions(ss: seq<SessionLines>)
  {
    ss == [] || (GoodSessions(ss[..|ss| - 1]) && GoodSession(ss[|ss| - 1]))
  }

  /** Every note is a note line. */
  predicate GoodNotes(ns: seq<string>)
  {
    ns == [] || (GoodNote(ns[0]) && GoodNotes(ns[1..]))
  }

  /** A heading that is a heading line, then well-formed sessions and
      notes. */
  predicate GoodBlock(b: Block)
  {
    IsHeading(Recognise(b.heading)) && !IsNoLecture(b.heading) &&
    GoodSessions(b.sessions) && GoodNotes(b.notes)
  }

  // ---------------------------------------------------------------------
  // What the parse should give
  // ---------------------------------------------------------------------

  /** The week list an occurrence line sets, when it can be read. */
  function WeeksOf(g: string): Option<seq<int>>
  {
    match ConvertOccur(g)
    case Success(weeks) => Some(weeks)
    case Failure(_) => None
  }

  function Expected(sl: SessionLines): Session
  {
    NewSession(sl.time).(occurrence := WeeksOf(sl.weeks))
  }

  function ExpectedSessions(ss: seq<SessionLines>): (r: seq<Session>)
    ensures |r| == |ss|
  {
    if ss == [] then [] else ExpectedSessions(ss[..|ss| - 1]) + [Expected(ss[|ss| - 1])]
  }

  /** `'sessions'` is absent from a class that has none. */
  function SessionsKey(ss: seq<SessionLines>): Option<seq<Session>>
  {
    if ss == [] then None else Some(ExpectedSessions(ss))
  }

  function ExpectedEntries(bs: seq<Block>): (r: seq<ClassEntry>)
    ensures |r| == |bs|
  {
    if bs == [] then []
    else
      var b := bs[|bs| - 1];
      ExpectedEntries(bs[..|bs| - 1]) + [ClassEntry(b.heading, SessionsKey(b.sessions))]
  }

  /** The loop variables while the sessions `done` of class `h` are read,
      after the classes whose entries are `prefix`. */
  function Within(prefix: seq<ClassEntry>, h: string, done: seq<SessionLines>): ParseState
  {
    ParseState(prefix + [ClassEntry(h, SessionsKey(done))], |prefix|, |done|)
  }

  /** The loop variables after the classes `bs`. */
  function AfterBlocks(bs: seq<Block>): ParseState
  {
    if bs == [] then Init
    else
      var b := bs[|bs| - 1];
      Within(ExpectedEntries(bs[..|bs| - 1]), b.heading, b.sessions)
  }

  // ---------------------------------------------------------------------
  // Lines of each kind
  // ---------------------------------------------------------------------

  lemma {:induction false} StepIsHeading(st: ParseState, l: string)
    requires IsHeading(Recognise(l)) && !IsNoLecture(l)
    ensures Step(st, l) == Continue(Heading(st, l))
  {
  }

  lemma {:induction false} StepIsOccur(st: ParseState, l: string)
    requires MatchOccur(l).Some? && !IsNoLecture(l)
    ensures Step(st, l) == OccurStep(st, MatchOccur(l).value)
  {
    TimeOrOccur(l);
  }

  /** The time line of a well-formed session reads back its groups. */
  lemma {:induction false} TimeLineReads(tm: TimeMatch)
    requires TimeGroups(tm)
    ensures MatchTime(TimeText(tm)) == Some(tm)
  {
    var l := TimeText(tm);
    assert l[..|l|] == l;
    assert l[|l|..] == [];
    TimeMatches(l, tm);
  }

  lemma {:induction false} OccurLineReads(g: string)
    requires '.' !in g && '\n' !in g
    ensures MatchOccur(OccurText(g)) == Some(g)
  {
    var l := OccurText(g);
    assert l[..|l|] == l;
    OccurMatches(l, g);
  }

  /** The loop variables once the time line of the next session has been
      read: its session is in the list, its weeks not yet. */
  function Mid(prefix: seq<ClassEntry>, h: string, done: seq<SessionLines>, tm: TimeMatch): ParseState
  {
    ParseState(prefix + [ClassEntry(h, Some(ExpectedSessions(done) + [NewSession(tm)]))],
               |prefix|, |done|)
  }

  /** A time line adds its session to the current class: as the only
      session when it is the first, after the others otherwise. */
  lemma {:induction false} TimeLineAdds(prefix: seq<ClassEntry>, h: string, done: seq<SessionLines>, tm: TimeMatch)
    ensures TimeStep(Within(prefix, h, done), tm) == Continue(Mid(prefix, h, done, tm))
  {
    var ss := ExpectedSessions(done) + [NewSession(tm)];
    assert done == [] ==> ss == [NewSession(tm)];
    UpdateLast(prefix, ClassEntry(h, SessionsKey(done)), ClassEntry(h, Some(ss)));
  }

  /** An occurrence line then fills in the weeks of that session and
      moves `secondary` past it. */
  lemma {:induction false} OccurLineFills(prefix: seq<ClassEntry>, h: string, done: seq<SessionLines>,
                       sl: SessionLines, weeks: seq<int>)
    requires WeeksOf(sl.weeks) == Some(weeks)
    ensures OccurWith(Mid(prefix, h, done, sl.time), Success(weeks)) ==
            Continue(Within(prefix, h, done + [sl]))
  {
    var all := done + [sl];
    assert all[..|all| - 1] == done;
    var ss := ExpectedSessions(done) + [NewSession(sl.time)];
    var ss' := ss[|done| := ss[|done|].(occurrence := Some(weeks))];
    UpdateLast(ExpectedSessions(done), NewSession(sl.time), Expected(sl));
    assert ExpectedSessions(all) == ExpectedSessions(done) + [Expected(sl)];
    UpdateLast(prefix, ClassEntry(h, Some(ss)), ClassEntry(h, Some(ss')));
  }

  /** The time line of a well-formed session. */
  lemma {:induction false} TimeHalf(prefix: seq<ClassEntry>, h: string, done: seq<SessionLines>, sl: SessionLines)
    requires TimeGroups(sl.time) && !IsNoLecture(TimeText(sl.time))
    ensures Step(Within(prefix, h, done), TimeText(sl.time)) == Continue(Mid(prefix, h, done, sl.time))
  {
    TimeLineReads(sl.time);
    StepIsTime(Within(prefix, h, done), TimeText(sl.time));
    TimeLineAdds(prefix, h, done, sl.time);
  }

  /** The occurrence line of a well-formed session. */
  lemma {:induction false} OccurHalf(prefix: seq<ClassEntry>, h: string, done: seq<SessionLines>, sl: SessionLines)
    requires '.' !in sl.weeks && '\n' !in sl.weeks && ConvertOccur(sl.weeks).Success?
    requires !IsNoLecture(OccurText(sl.weeks))
    ensures Step(Mid(prefix, h, done, sl.time), OccurText(sl.weeks)) ==
            Continue(Within(prefix, h, done + [sl]))
  {
    var mid := Mid(prefix, h, done, sl.time);
    OccurLineReads(sl.weeks);
    StepIsOccur(mid, OccurText(sl.weeks));
    assert OccurStep(mid, sl.weeks) == OccurWith(mid, ConvertOccur(sl.weeks));
    OccurLineFills(prefix, h, done, sl, ConvertOccur(sl.weeks).value);
  }

  /** The two lines of a session. */
  lemma {:induction false} SessionRuns(prefix: seq<ClassEntry>, h: string, done: seq<SessionLines>, sl: SessionLines)
    requires GoodSession(sl)
    ensures Advance(Continue(Within(prefix, h, done)), SessionText(sl)) ==
            Continue(Within(prefix, h, done + [sl]))
  {
    TimeHalf(prefix, h, done, sl);
    OccurHalf(prefix, h, done, sl);
    AdvanceTwo(Within(prefix, h, done), Mid(prefix, h, done, sl.time), Within(prefix, h, done + [sl]),
               TimeText(sl.time), OccurText(sl.weeks));
  }

  lemma {:induction false} UpdateLast<T>(prefix: seq<T>, x: T, y: T)
    ensures (prefix + [x])[|prefix| := y] == prefix + [y]
  {
  }

  lemma {:induction false} AdvanceTwo(s0: ParseState, s1: ParseState, s2: ParseState, a: string, b: string)
    requires Step(s0, a) == Continue(s1) && Step(s1, b) == Continue(s2)
    ensures Advance(Continue(s0), [a, b]) == Continue(s2)
  {
    AdvanceStep(s0, a, [b]);
    AdvanceStep(s1, b, []);
    assert [a] + [b] == [a, b] && [b] + [] == [b];
  }

  lemma {:induction false} SessionsRun(prefix: seq<ClassEntry>, h: string, ss: seq<SessionLines>)
    requires GoodSessions(ss)
    ensures Advance(Continue(Within(prefix, h, [])), SessionsText(ss)) ==
            Continue(Within(prefix, h, ss))
    decreases |ss|
  {
    if ss != [] {
      SessionsRun(prefix, h, ss[..|ss| - 1]);
      LastSessionRuns(prefix, h, ss);
      SessionsAppend(prefix, h, ss);
    }
  }

  /** The lines of the last session, after those before it. */
  lemma {:induction false} LastSessionRuns(prefix: seq<ClassEntry>, h: string, ss: seq<SessionLines>)
    requires ss != [] && GoodSession(ss[|ss| - 1])
    ensures Advance(Continue(Within(prefix, h, ss[..|ss| - 1])), SessionText(ss[|ss| - 1])) ==
            Continue(Within(prefix, h, ss))
  {
    InitLast(ss);
    SessionRuns(prefix, h, ss[..|ss| - 1], ss[|ss| - 1]);
  }

  lemma {:induction false} InitLast<T>(ss: seq<T>)
    requires ss != []
    ensures ss[..|ss| - 1] + [ss[|ss| - 1]] == ss
  {
  }

  /** Reading the sessions up to the last, then the last. */
  lemma {:induction false} SessionsAppend(prefix: seq<ClassEntry>, h: string, ss: seq<SessionLines>)
    requires ss != []
    requires Advance(Continue(Within(prefix, h, [])), SessionsText(ss[..|ss| - 1])) ==
             Continue(Within(prefix, h, ss[..|ss| - 1]))
    requires Advance(Continue(Within(prefix, h, ss[..|ss| - 1])), SessionText(ss[|ss| - 1])) ==
             Continue(Within(prefix, h, ss))
    ensures Advance(Continue(Within(prefix, h, [])), SessionsText(ss)) == Continue(Within(prefix, h, ss))
  {
    AdvanceAppend(Continue(Within(prefix, h, [])), SessionsText(ss[..|ss| - 1]), SessionText(ss[|ss| - 1]));
  }

  /** Note lines change nothing. */
  lemma {:induction false} NotesRun(st: ParseState, notes: seq<string>)
    requires GoodNotes(notes)
    ensures Advance(Continue(st), notes) == Continue(st)
    decreases |notes|
  {
    if notes != [] {
      BallotLine(st, notes[0]);
      AdvanceStep(st, notes[0], notes[1..]);
      assert [notes[0]] + notes[1..] == notes;
      NotesRun(st, notes[1..]);
    }
  }

  /** A heading after the classes `bs` opens a new entry, with both
      cursors on it. */
  lemma {:induction false} HeadingRuns(bs: seq<Block>, h: string)
    requires IsHeading(Recognise(h)) && !IsNoLecture(h)
    ensures Step(AfterBlocks(bs), h) == Continue(Within(ExpectedEntries(bs), h, []))
  {
    StepIsHeading(AfterBlocks(bs), h);
  }

  lemma {:induction false} BlocksRun(bs: seq<Block>)
    requires forall i :: 0 <= i < |bs| ==> GoodBlock(bs[i])
    ensures Advance(Continue(Init), BlocksText(bs)) == Continue(AfterBlocks(bs))
    decreases |bs|
  {
    if bs != [] {
      BlocksRun(bs[..|bs| - 1]);
      BlocksAppend(bs);
    }
  }

  /** The last class, after those before it have been read. */
  lemma {:induction false} BlocksAppend(bs: seq<Block>)
    requires bs != [] && GoodBlock(bs[|bs| - 1])
    requires Advance(Continue(Init), BlocksText(bs[..|bs| - 1])) == Continue(AfterBlocks(bs[..|bs| - 1]))
    ensures Advance(Continue(Init), BlocksText(bs)) == Continue(AfterBlocks(bs))
  {
    var init, b := bs[..|bs| - 1], bs[|bs| - 1];
    var prefix := ExpectedEntries(init);
    var lines := [b.heading] + SessionsText(b.sessions) + b.notes;
    assert lines == [b.heading] + (SessionsText(b.sessions) + b.notes);
    AdvanceAppend(Continue(Init), BlocksText(init), lines);
    AdvanceStep(AfterBlocks(init), b.heading, SessionsText(b.sessions) + b.notes);
    HeadingRuns(init, b.heading);
    BlockBody(prefix, b);
  }

  /** The sessions and notes of a class, after its heading. */
  lemma {:induction false} BlockBody(prefix: seq<ClassEntry>, b: Block)
    requires GoodSessions(b.sessions) && GoodNotes(b.notes)
    ensures Advance(Continue(Within(prefix, b.heading, [])), SessionsText(b.sessions) + b.notes) ==
            Continue(Within(prefix, b.heading, b.sessions))
  {
    AdvanceAppend(Continue(Within(prefix, b.heading, [])), SessionsText(b.sessions), b.notes);
    SessionsRun(prefix, b.heading, b.sessions);
    NotesRun(Within(prefix, b.heading, b.sessions), b.notes);
  }

  /** On the page layout, `timeparse` gives one entry per class, in
      order, each with its sessions in order and their weeks filled in. */
  lemma {:induction false} BlocksParse(bs: seq<Block>)
    requires forall i :: 0 <= i < |bs| ==> GoodBlock(bs[i])
    ensures TimeParse(BlocksText(bs)) == Success(Entries(ExpectedEntries(bs)))
  {
    BlocksRun(bs);
  }

  // ---------------------------------------------------------------------
  // The example of the docstring
  // ---------------------------------------------------------------------

  const Week: seq<int> := [1, 2, 3, 4, 5, 6, 7, 8, 9, 10, 11, 12, 13]

  const ExampleHeading: string := "DESIGN LECTURE Class [1]"
  const ExampleNote: string := "Not Available in" + BallotText + "yet."
  const Monday: SessionLines := SessionLines(TimeMatch("MONDAY", "1400", "1800", "AKI2"), "EVERY WEEK")
  const Thursday: SessionLines := SessionLines(TimeMatch("THURSDAY", "1400", "1800", "AKI2"), "EVERY WEEK")

  /** A line without a `c` is not a no-lecture line. */
  lemma {:induction false} WithoutC(l: string)
    requires 'c' !in l
    ensures !IsNoLecture(l)
  {
    SearchLineChars(l, NoLectureText);
    assert NoLectureText[6] == 'c';
  }

  /** A line with no `F`, no `g` and no `c` that does not start with `W`
      is a heading. */
  lemma {:induction false} HeadingByChars(l: string)
    requires 'F' !in l && 'g' !in l && 'c' !in l && (l == [] || l[0] != 'W')
    ensures IsHeading(Recognise(l)) && !IsNoLecture(l)
  {
    TimeHasFrom(l);
    OccurHasWeek(l);
    SearchLineChars(l, BallotText);
    assert BallotText[18] == 'g';
    WithoutC(l);
  }

  /** A line holding ` Tutorial Balloting ` on its first line, with no `F`
      and no `c` and not starting with `W`, is a note. */
  lemma {:induction false} NoteByChars(a: string, b: string)
    requires '\n' !in a
    requires 'F' !in a && 'F' !in b && 'c' !in a && 'c' !in b
    requires a != [] && a[0] != 'W'
    ensures GoodNote(a + BallotText + b)
  {
    var l := a + BallotText + b;
    assert 'F' !in l && 'c' !in l;
    TimeHasFrom(l);
    OccurHasWeek(l);
    assert l[..|a|] == a;
    assert l[|a|..] == BallotText + b;
    assert FoundAt(l, BallotText, |a|);
    BallotMatches(l);
    WithoutC(l);
  }

  /** A session whose pieces have no `c` says nothing about lectures. */
  lemma {:induction false} SessionByParts(sl: SessionLines)
    requires TimeGroups(sl.time)
    requires 'c' !in sl.time.day && 'c' !in sl.time.start && 'c' !in sl.time.end && 'c' !in sl.time.location
    requires '.' !in sl.weeks && '\n' !in sl.weeks && 'c' !in sl.weeks
    requires ConvertOccur(sl.weeks).Success?
    ensures GoodSession(sl)
  {
    TimeTextWithoutC(sl.time);
    WithoutC(TimeText(sl.time));
    OccurTextWithoutC(sl.weeks);
    WithoutC(OccurText(sl.weeks));
  }

  lemma {:induction false} TimeTextWithoutC(tm: TimeMatch)
    requires 'c' !in tm.day && 'c' !in tm.start && 'c' !in tm.end && 'c' !in tm.location
    ensures 'c' !in TimeText(tm)
  {
  }

  lemma {:induction false} OccurTextWithoutC(g: string)
    requires 'c' !in g
    ensures 'c' !in OccurText(g)
  {
  }

  lemma {:induction false} EveryWeekGood()
    ensures '.' !in "EVERY WEEK" && '\n' !in "EVERY WEEK" && 'c' !in "EVERY WEEK"
    ensures ConvertOccur("EVERY WEEK") == Success(Week)
  {
    assert Week == seq(13, i => i + 1);
  }

  lemma {:induction false} MondayGood()
    ensures GoodSession(Monday)
  {
    assert AllWordChars("MONDAY");
    assert IsDigits("1400") && IsDigits("1800");
    EveryWeekGood();
    SessionByParts(Monday);
  }

  lemma {:induction false} ThursdayGood()
    ensures GoodSession(Thursday)
  {
    assert AllWordChars("THURSDAY");
    assert IsDigits("1400") && IsDigits("1800");
    EveryWeekGood();
    SessionByParts(Thursday);
  }

  lemma {:induction false} HeadingGood()
    ensures IsHeading(Recognise(ExampleHeading)) && !IsNoLecture(ExampleHeading)
  {
    HeadingByChars(ExampleHeading);
  }

  lemma {:induction false} NoteGood()
    ensures GoodNote(ExampleNote)
  {
    NoteByChars("Not Available in", "yet.");
  }

  lemma {:induction false} BlockOfTwo(h: string, s1: SessionLines, s2: SessionLines, n: string)
    requires IsHeading(Recognise(h)) && !IsNoLecture(h)
    requires GoodSession(s1) && GoodSession(s2) && GoodNote(n)
    ensures GoodBlock(Block(h, [s1, s2], [n]))
  {
    TwoSessions(s1, s2);
    OneNote(n);
  }

  lemma {:induction false} TwoSessions(s1: SessionLines, s2: SessionLines)
    requires GoodSession(s1) && GoodSession(s2)
    ensures GoodSessions([s1, s2])
  {
    assert [s1, s2][..1] == [s1] && [s1][..0] == [];
    assert GoodSessions([s1]);
  }

  lemma {:induction false} OneNote(n: string)
    requires GoodNote(n)
    ensures GoodNotes([n])
  {
    assert [n][1..] == [];
  }

  lemma {:induction false} ExampleBlockGood()
    ensures GoodBlock(Block(ExampleHeading, [Monday, Thursday], [ExampleNote]))
  {
    HeadingGood();
    NoteGood();
    MondayGood();
    ThursdayGood();
    BlockOfTwo(ExampleHeading, Monday, Thursday, ExampleNote);
  }

  /** The lines of the example, as the layout builds them. */
  lemma {:induction false} ExampleText()
    ensures BlockText(Block(ExampleHeading, [Monday, Thursday], [ExampleNote])) ==
            [ExampleHeading, TimeText(Monday.time), OccurText("EVERY WEEK"),
             TimeText(Thursday.time), OccurText("EVERY WEEK"), ExampleNote]
  {
    assert [Monday, Thursday][..1] == [Monday] && [Monday][..0] == [];
    assert SessionsText([Monday]) == SessionText(Monday);
    assert SessionsText([Monday, Thursday]) == SessionText(Monday) + SessionText(Thursday);
  }

  lemma {:induction false} MondayLine()
    ensures TimeText(Monday.time) == "MONDAY From 1400 hrs to 1800 hrs in AKI2,"
  {
    var x1 := "MONDAY" + " From ";
    assert x1 == "MONDAY From ";
    var x2 := x1 + "1400";
    assert x2 == "MONDAY From 1400";
    var x3 := x2 + " hrs to ";
    assert x3 == "MONDAY From 1400 hrs to ";
    var x4 := x3 + "1800";
    assert x4 == "MONDAY From 1400 hrs to 1800";
    var x5 := x4 + " hrs in ";
    assert x5 == "MONDAY From 1400 hrs to 1800 hrs in ";
    var x6 := x5 + "AKI2";
    assert x6 == "MONDAY From 1400 hrs to 1800 hrs in AKI2";
  }

  lemma {:induction false} ThursdayLine()
    ensures TimeText(Thursday.time) == "THURSDAY From 1400 hrs to 1800 hrs in AKI2,"
  {
    var x1 := "THURSDAY" + " From ";
    assert x1 == "THURSDAY From ";
    var x2 := x1 + "1400";
    assert x2 == "THURSDAY From 1400";
    var x3 := x2 + " hrs to ";
    assert x3 == "THURSDAY From 1400 hrs to ";
    var x4 := x3 + "1800";
    assert x4 == "THURSDAY From 1400 hrs to 1800";
    var x5 := x4 + " hrs in ";
    assert x5 == "THURSDAY From 1400 hrs to 1800 hrs in ";
    var x6 := x5 + "AKI2";
    assert x6 == "THURSDAY From 1400 hrs to 1800 hrs in AKI2";
  }

  lemma {:induction false} WeeksLine()
    ensures OccurText("EVERY WEEK") == "Week(s): EVERY WEEK."
  {
  }

  lemma {:induction false} NoteLine()
    ensures ExampleNote == "Not Available in Tutorial Balloting yet."
  {
  }

  const ExampleEntries: seq<ClassEntry> :=
    [ClassEntry("DESIGN LECTURE Class [1]",
                Some([Session(Some(1), "1400", "1800", "AKI2", Some(Week)),
                      Session(Some(4), "1400", "1800", "AKI2", Some(Week))]))]

  lemma {:induction false} ExampleParses()
    ensures TimeParse([ExampleHeading, TimeText(Monday.time), OccurText("EVERY WEEK"),
                       TimeText(Thursday.time), OccurText("EVERY WEEK"), ExampleNote]) ==
            Success(Entries(ExampleEntries))
  {
    ExampleBlockGood();
    OneBlock(Block(ExampleHeading, [Monday, Thursday], [ExampleNote]));
    ExampleText();
    ExampleExpected();
  }

  /** A single class on its own. */
  lemma {:induction false} OneBlock(b: Block)
    requires GoodBlock(b)
    ensures TimeParse(BlockText(b)) == Success(Entries([ClassEntry(b.heading, SessionsKey(b.sessions))]))
  {
    var bs := [b];
    assert bs[..0] == [] && bs[0] == b;
    assert BlocksText(bs) == [] + BlockText(b) == BlockText(b);
    assert ExpectedEntries(bs) == [] + [ClassEntry(b.heading, SessionsKey(b.sessions))];
    assert forall i :: 0 <= i < |bs| ==> GoodBlock(bs[i]);
    BlocksParse(bs);
    assert TimeParse(BlocksText(bs)) == Success(Entries(ExpectedEntries(bs)));
    assert TimeParse(BlockText(b)) == Success(Entries(ExpectedEntries(bs)));
    assert ExpectedEntries(bs) == [ClassEntry(b.heading, SessionsKey(b.sessions))];
  }

  lemma {:induction false} ExampleExpected()
    ensures [ClassEntry(ExampleHeading, SessionsKey([Monday, Thursday]))] == ExampleEntries
  {
    assert [Monday, Thursday][..1] == [Monday] && [Monday][..0] == [];
    EveryWeekGood();
    assert ConvertDay("MONDAY") == Some(1) by {
      assert DayNames[0] == "MONDAY";
    }
    assert ConvertDay("THURSDAY") == Some(4) by {
      assert DayNames[3] == "THURSDAY";
    }
    assert Expected(Monday) == Session(Some(1), "1400", "1800", "AKI2", Some(Week));
    assert Expected(Thursday) == Session(Some(4), "1400", "1800", "AKI2", Some(Week));
    assert ExpectedSessions([Monday, Thursday]) == [Expected(Monday), Expected(Thursday)];
  }

  /** The six lines of the docstring give one class with two sessions,
      both at `AKI2` (the docstring shows one session at `AK12`). */
  lemma {:induction false} DocstringExample(lines: seq<string>)
    requires lines == ["DESIGN LECTURE Class [1]",
                       "MONDAY From 1400 hrs to 1800 hrs in AKI2,",
                       "Week(s): EVERY WEEK.",
                       "THURSDAY From 1400 hrs to 1800 hrs in AKI2,",
                       "Week(s): EVERY WEEK.",
                       "Not Available in Tutorial Balloting yet."]
    ensures TimeParse(lines) == Success(Entries(ExampleEntries))
  {
    ExampleParses();
    MondayLine();
    ThursdayLine();
    WeeksLine();
    NoteLine();
    var built := [ExampleHeading, TimeText(Monday.time), OccurText("EVERY WEEK"),
                  TimeText(Thursday.time), OccurText("EVERY WEEK"), ExampleNote];
    assert lines == built;
    assert TimeParse(built) == Success(Entries(ExampleEntries));
  }
}
