/** `timeparse` (cors/spiders/cors_spider.py:57-141): the loop over the
    lines of a lecture or tutorial table, with the list `res` of class
    entries, the class cursor `pos` and the session cursor `secondary`. */
module TimetableParser {
  import opened Wrappers
  import opened Converters
  import opened Recognisers
  import opened Strings

  /** A session dict (cors/spiders/cors_spider.py:123-128). The source
      spells the key of the week list `'occurence'`; it is present only
      once an occurrence line has set it. */
  datatype Session = Session(day: Option<int>, startTime: string, endTime: string,
                             location: string, occurrence: Option<seq<int>>)

  /** A class dict `{'name': l}`; the key `'sessions'` is present only once
      a time line has set it. */
  datatype ClassEntry = ClassEntry(name: string, sessions: Option<seq<Session>>)

  /** What `timeparse` returns: `u'null'` or the list of classes. */
  datatype Timetable = NoSessions | Entries(entries: seq<ClassEntry>)

  /** The loop variables `res`, `pos` and `secondary`. */
  datatype ParseState = ParseState(res: seq<ClassEntry>, pos: nat, secondary: nat)

  /** After a line: go on, return `u'null'`, or raise. */
  datatype Progress = Continue(st: ParseState) | Null | Crash(error: PyError)

  const Init: ParseState := ParseState([], 0, 0)

  /** What the four patterns make of one line: `time_re`, `occur_re`,
      `ballot_re` and the no-lecture test. */
  datatype LineMatch = LineMatch(time: Option<TimeMatch>, occur: Option<string>,
                                 ballot: bool, noLecture: bool)

  function Recognise(l: string): LineMatch
  {
    LineMatch(MatchTime(l), MatchOccur(l), IsBallot(l), IsNoLecture(l))
  }

  /** A line that none of the time, occurrence and ballot patterns match
      names a new class. */
  predicate IsHeading(m: LineMatch)
  {
    m.time.None? && m.occur.None? && !m.ballot
  }

  /** The session dict a time line builds. */
  function NewSession(tm: TimeMatch): Session
  {
    Session(ConvertDay(tm.day), tm.start, tm.end, tm.location, None)
  }

  /** A heading: `res.append({'name': l})`; the cursors move to the new
      entry unless it is the very first one. */
  function Heading(st: ParseState, l: string): ParseState
  {
    if st.pos == 0 && st.res == [] then st.(res := st.res + [ClassEntry(l, None)])
    else ParseState(st.res + [ClassEntry(l, None)], st.pos + 1, 0)
  }

  /** A time line: `res[pos]['sessions'] = [s]` when `secondary == 0`,
      else `res[pos]['sessions'].append(s)`. */
  function TimeStep(st: ParseState, tm: TimeMatch): Progress
  {
    var s := NewSession(tm);
    if st.pos >= |st.res| then Crash(IndexError)
    else
      var entry := st.res[st.pos];
      if st.secondary == 0 then
        Continue(st.(res := st.res[st.pos := entry.(sessions := Some([s]))]))
      else
        match entry.sessions
        case None => Crash(KeyError)
        case Some(ss) => Continue(st.(res := st.res[st.pos := entry.(sessions := Some(ss + [s]))]))
  }

  /** An occurrence line: `convert_occur` runs first, then the week list
      goes to session `secondary` of entry `pos`, each index and key looked
      up in turn, and `secondary` moves on. */
  function OccurStep(st: ParseState, text: string): Progress
  {
    OccurWith(st, ConvertOccur(text))
  }

  /** The occurrence case once `convert_occur` has given `conv`. */
  function OccurWith(st: ParseState, conv: Result<seq<int>, PyError>): Progress
  {
    match conv
    case Failure(e) => Crash(e)
    case Success(weeks) =>
      if st.pos >= |st.res| then Crash(IndexError)
      else
        var entry := st.res[st.pos];
        match entry.sessions
        case None => Crash(KeyError)
        case Some(ss) =>
          if st.secondary >= |ss| then Crash(IndexError)
          else
            var ss' := ss[st.secondary := ss[st.secondary].(occurrence := Some(weeks))];
            Continue(ParseState(st.res[st.pos := entry.(sessions := Some(ss'))], st.pos, st.secondary + 1))
  }

  /** The first `if` of the loop body: a heading. */
  function AfterHeading(st: ParseState, l: string, m: LineMatch): ParseState
  {
    if IsHeading(m) then Heading(st, l) else st
  }

  /** The second `if`: a time line. */
  function AfterTime(st: ParseState, m: LineMatch): Progress
  {
    match m.time
    case None => Continue(st)
    case Some(tm) => TimeStep(st, tm)
  }

  /** The third `if`: an occurrence line, unless the time case raised. */
  function AfterOccur(p: Progress, m: LineMatch): Progress
  {
    if !p.Continue? then p
    else
      match m.occur
      case None => p
      case Some(text) => OccurStep(p.st, text)
  }

  /** One iteration of the loop on line `l`, which the patterns read as
      `m`. The heading, time and occurrence cases are three separate
      `if`s, each on the state the previous one left. */
  function StepWith(st: ParseState, l: string, m: LineMatch): Progress
  {
    if m.noLecture then Null else AfterOccur(AfterTime(AfterHeading(st, l, m), m), m)
  }

  function Step(st: ParseState, l: string): Progress
  {
    StepWith(st, l, Recognise(l))
  }

  /** The loop over `lines`; a return or an exception ends it. */
  function Advance(p: Progress, lines: seq<string>): Progress
    decreases |lines|
  {
    if lines == [] || !p.Continue? then p else Advance(Step(p.st, lines[0]), lines[1..])
  }

  function Finish(p: Progress): Result<Timetable, PyError>
  {
    match p
    case Continue(st) => Success(Entries(st.res))
    case Null => Success(NoSessions)
    case Crash(e) => Failure(e)
  }

  /** `timeparse(parselist)`, as a function of its input. */
  function TimeParse(lines: seq<string>): Result<Timetable, PyError>
  {
    Finish(Advance(Continue(Init), lines))
  }

  // ---------------------------------------------------------------------
  // The loop itself
  // ---------------------------------------------------------------------

  /** `timeparse(parselist)`: the loop of the source, with the dict
      updates written as updates of the sequences that hold them. */
  method ParseTimetable(parselist: seq<string>) returns (r: Result<Timetable, PyError>)
    ensures r == TimeParse(parselist)
  {
    var res: seq<ClassEntry> := [];
    var pos: nat := 0;
    var secondary: nat := 0;
    for i := 0 to |parselist|
      invariant Advance(Continue(Init), parselist) ==
                Advance(Continue(ParseState(res, pos, secondary)), parselist[i..])
    {
      var l := parselist[i];
      ghost var rest := parselist[i + 1..];
      assert parselist[i..] == [l] + rest;
      AdvanceStep(ParseState(res, pos, secondary), l, rest);
      var timeRe := MatchTime(l);
      var occurRe := MatchOccur(l);
      var ballotRe := IsBallot(l);
      var noLecture := IsNoLecture(l);
      var outcome := ApplyLine(res, pos, secondary, l, LineMatch(timeRe, occurRe, ballotRe, noLecture));
      match outcome
      case Null =>
        AdvanceStops(Null, rest);
        return Success(NoSessions);
      case Crash(e) =>
        AdvanceStops(Crash(e), rest);
        return Failure(e);
      case Continue(st) =>
        res, pos, secondary := st.res, st.pos, st.secondary;
    }
    assert parselist[|parselist|..] == [];
    return Success(Entries(res));
  }

  /** The body of the loop once the four patterns have been tried on `l`:
      the no-lecture return, then the three `if`s in turn, each on the
      variables the previous one left. `Null` stands for the early
      `return u'null'` and `Crash` for an exception. */
  method ApplyLine(res0: seq<ClassEntry>, pos0: nat, secondary0: nat, l: string, m: LineMatch)
    returns (outcome: Progress)
    ensures outcome == StepWith(ParseState(res0, pos0, secondary0), l, m)
  {
    if m.noLecture {
      return Null;
    }
    var res, pos, secondary := res0, pos0, secondary0;
    if m.time.None? && m.occur.None? && !m.ballot {
      if pos == 0 && res == [] {
        res := res + [ClassEntry(l, None)];
      } else {
        res := res + [ClassEntry(l, None)];
        secondary := 0;
        pos := pos + 1;
      }
    }
    ghost var heading := ParseState(res, pos, secondary);
    assert heading == AfterHeading(ParseState(res0, pos0, secondary0), l, m);
    if m.time.Some? {
      var timed := AddSession(res, pos, secondary, m.time.value);
      if !timed.Continue? {
        return timed;
      }
      res, pos, secondary := timed.st.res, timed.st.pos, timed.st.secondary;
    }
    assert AfterTime(heading, m) == Continue(ParseState(res, pos, secondary));
    if m.occur.Some? {
      var occurence := ConvertOccur(m.occur.value);
      outcome := SetWeeks(res, pos, secondary, occurence);
      return;
    }
    return Continue(ParseState(res, pos, secondary));
  }

  /** The time case: the session dict is built and either starts the
      sessions of entry `pos` or is appended to them. */
  method AddSession(res: seq<ClassEntry>, pos: nat, secondary: nat, tm: TimeMatch)
    returns (outcome: Progress)
    ensures outcome == TimeStep(ParseState(res, pos, secondary), tm)
  {
    var session := Session(ConvertDay(tm.day), tm.start, tm.end, tm.location, None);
    if pos >= |res| {
      return Crash(IndexError);
    }
    if secondary == 0 {
      return Continue(ParseState(res[pos := res[pos].(sessions := Some([session]))], pos, secondary));
    }
    if res[pos].sessions.None? {
      return Crash(KeyError);
    }
    var ss := res[pos].sessions.value + [session];
    return Continue(ParseState(res[pos := res[pos].(sessions := Some(ss))], pos, secondary));
  }

  /** The occurrence case once `convert_occur` has run: its error, or the
      week list stored in session `secondary` of entry `pos`, looking up
      the entry, its sessions and the session in turn. */
  method SetWeeks(res: seq<ClassEntry>, pos: nat, secondary: nat, occurence: Result<seq<int>, PyError>)
    returns (outcome: Progress)
    ensures outcome == OccurWith(ParseState(res, pos, secondary), occurence)
  {
    if occurence.Failure? {
      return Crash(occurence.error);
    }
    if pos >= |res| {
      return Crash(IndexError);
    }
    if res[pos].sessions.None? {
      return Crash(KeyError);
    }
    var ss := res[pos].sessions.value;
    if secondary >= |ss| {
      return Crash(IndexError);
    }
    ss := ss[secondary := ss[secondary].(occurrence := Some(occurence.value))];
    return Continue(ParseState(res[pos := res[pos].(sessions := Some(ss))], pos, secondary + 1));
  }

  // ---------------------------------------------------------------------
  // The fold
  // ---------------------------------------------------------------------

  lemma {:induction false} AdvanceStep(st: ParseState, l: string, rest: seq<string>)
    ensures Advance(Continue(st), [l] + rest) == Advance(Step(st, l), rest)
  {
    assert ([l] + rest)[1..] == rest;
  }

  /** Once the loop has returned or raised, later lines are not read. */
  lemma {:induction false} AdvanceStops(p: Progress, lines: seq<string>)
    requires !p.Continue?
    ensures Advance(p, lines) == p
  {
  }

  /** Reading `a + b` is reading `a`, then `b`. */
  lemma {:induction false} AdvanceAppend(p: Progress, a: seq<string>, b: seq<string>)
    ensures Advance(p, a + b) == Advance(Advance(p, a), b)
    decreases |a|
  {
    if a == [] {
      assert a + b == b;
    } else if p.Continue? {
      assert (a + b)[0] == a[0] && (a + b)[1..] == a[1..] + b;
      AdvanceAppend(Step(p.st, a[0]), a[1..], b);
    } else {
      AdvanceStops(p, b);
    }
  }

  // ---------------------------------------------------------------------
  // One line at a time
  // ---------------------------------------------------------------------

  /** A time line is never an occurrence line, and so never a heading. */
  lemma {:induction false} TimeOrOccur(l: string)
    ensures MatchTime(l).None? || MatchOccur(l).None?
  {
    if MatchOccur(l).Some? {
      OccurIsNotTime(l);
    }
  }

  /** The loop returns `u'null'` at a line exactly when that line is a
      no-lecture line. */
  lemma {:induction false} StepNull(st: ParseState, l: string)
    ensures Step(st, l) == Null <==> IsNoLecture(l)
  {
    StepWithNull(st, l, Recognise(l));
  }

  lemma {:induction false} StepWithNull(st: ParseState, l: string, m: LineMatch)
    ensures StepWith(st, l, m) == Null <==> m.noLecture
  {
    var t := AfterTime(AfterHeading(st, l, m), m);
    assert t != Null;
    if t.Continue? && m.occur.Some? {
      OccurNotNull(t.st, m.occur.value);
    }
  }

  lemma {:induction false} OccurNotNull(st: ParseState, text: string)
    ensures OccurStep(st, text) != Null
  {
    OccurWithNotNull(st, ConvertOccur(text));
  }

  lemma {:induction false} OccurWithNotNull(st: ParseState, conv: Result<seq<int>, PyError>)
    ensures OccurWith(st, conv) != Null
  {
  }

  // ---------------------------------------------------------------------
  // The cursors
  // ---------------------------------------------------------------------

  /** What holds of the loop variables between iterations: `pos` is the
      index of the last entry, and `secondary`, when positive, is at most
      the number of sessions of that entry. */
  predicate Valid(st: ParseState)
  {
    (st.res == [] ==> st.pos == 0 && st.secondary == 0) &&
    (st.res != [] ==> st.pos == |st.res| - 1) &&
    (st.secondary > 0 ==>
       st.res != [] && st.res[st.pos].sessions.Some? &&
       st.secondary <= |st.res[st.pos].sessions.value|)
  }

  lemma {:induction false} HeadingValid(st: ParseState, l: string)
    requires Valid(st)
    ensures Heading(st, l) == ParseState(st.res + [ClassEntry(l, None)], |st.res|, 0)
    ensures Valid(Heading(st, l))
  {
  }

  lemma {:induction false} TimeStepValid(st: ParseState, tm: TimeMatch)
    requires Valid(st) && TimeStep(st, tm).Continue?
    ensures Valid(TimeStep(st, tm).st)
  {
  }

  lemma {:induction false} OccurStepValid(st: ParseState, text: string)
    requires Valid(st) && OccurStep(st, text).Continue?
    ensures Valid(OccurStep(st, text).st)
  {
    OccurWithValid(st, ConvertOccur(text));
  }

  lemma {:induction false} OccurWithValid(st: ParseState, conv: Result<seq<int>, PyError>)
    requires Valid(st) && OccurWith(st, conv).Continue?
    ensures Valid(OccurWith(st, conv).st)
  {
    var ss := st.res[st.pos].sessions.value;
    var st' := OccurWith(st, conv).st;
    assert st'.res[st.pos].sessions.value == ss[st.secondary := ss[st.secondary].(occurrence := Some(conv.value))];
  }

  /** Every line keeps the variables valid. */
  lemma {:induction false} StepValid(st: ParseState, l: string)
    requires Valid(st) && Step(st, l).Continue?
    ensures Valid(Step(st, l).st)
  {
    var m := Recognise(l);
    var h := AfterHeading(st, l, m);
    if IsHeading(m) {
      HeadingValid(st, l);
    }
    var t := AfterTime(h, m);
    if m.time.Some? && t.Continue? {
      TimeStepValid(h, m.time.value);
    }
    if t.Continue? && m.occur.Some? && OccurStep(t.st, m.occur.value).Continue? {
      OccurStepValid(t.st, m.occur.value);
    }
  }

  lemma {:induction false} AdvanceValid(p: Progress, lines: seq<string>)
    requires p.Continue? ==> Valid(p.st)
    ensures Advance(p, lines).Continue? ==> Valid(Advance(p, lines).st)
    decreases |lines|
  {
    if lines != [] && p.Continue? {
      var q := Step(p.st, lines[0]);
      if q.Continue? {
        StepValid(p.st, lines[0]);
      }
      AdvanceValid(q, lines[1..]);
    }
  }

  /** The state after any prefix of the input is valid. */
  lemma {:induction false} Reachable(lines: seq<string>)
    ensures Advance(Continue(Init), lines).Continue? ==> Valid(Advance(Continue(Init), lines).st)
  {
    AdvanceValid(Continue(Init), lines);
  }

  // ---------------------------------------------------------------------
  // Lines of each kind
  // ---------------------------------------------------------------------

  /** A heading appends one entry named by the line, with no sessions;
      `pos` then indexes it and `secondary` is 0. */
  lemma {:induction false} HeadingLine(st: ParseState, l: string)
    requires Valid(st) && IsHeading(Recognise(l)) && !IsNoLecture(l)
    ensures Step(st, l) == Continue(ParseState(st.res + [ClassEntry(l, None)], |st.res|, 0))
  {
    HeadingValid(st, l);
  }

  /** A ballot line that is neither a time nor an occurrence line changes
      nothing. */
  lemma {:induction false} BallotLine(st: ParseState, l: string)
    requires IsBallot(l) && MatchTime(l).None? && MatchOccur(l).None? && !IsNoLecture(l)
    ensures Step(st, l) == Continue(st)
  {
  }

  /** The new state after a time line when an entry exists: only the
      sessions of entry `pos` change. */
  predicate TimeUpdated(st: ParseState, st': ParseState, s: Session)
    requires st.pos < |st.res|
  {
    st'.pos == st.pos && st'.secondary == st.secondary &&
    |st'.res| == |st.res| &&
    (forall j :: 0 <= j < |st.res| && j != st.pos ==> st'.res[j] == st.res[j]) &&
    st'.res[st.pos].name == st.res[st.pos].name &&
    st'.res[st.pos].sessions.Some? &&
    (st.secondary == 0 ==> st'.res[st.pos].sessions.value == [s]) &&
    (st.secondary != 0 ==> st.res[st.pos].sessions.Some? &&
                           st'.res[st.pos].sessions.value == st.res[st.pos].sessions.value + [s])
  }

  /** A time line before any entry raises IndexError. Otherwise it
      replaces the sessions of entry `pos` by the new session when
      `secondary` is 0 and appends the new session otherwise; the
      KeyError of a missing sessions list cannot happen. */
  lemma {:induction false} TimeLine(st: ParseState, l: string)
    requires Valid(st) && MatchTime(l).Some? && !IsNoLecture(l)
    ensures st.res == [] ==> Step(st, l) == Crash(IndexError)
    ensures st.res != [] ==>
              Step(st, l).Continue? &&
              TimeUpdated(st, Step(st, l).st, NewSession(MatchTime(l).value))
  {
    StepIsTime(st, l);
  }

  /** A time line (which is never an occurrence line) goes through
      `TimeStep` alone. */
  lemma {:induction false} StepIsTime(st: ParseState, l: string)
    requires MatchTime(l).Some? && !IsNoLecture(l)
    ensures Step(st, l) == TimeStep(st, MatchTime(l).value)
  {
    TimeOrOccur(l);
  }

  /** The new state after an occurrence line that succeeds: only the
      week list of session `secondary` of entry `pos` changes, and
      `secondary` moves on. */
  predicate OccurUpdated(st: ParseState, st': ParseState, weeks: seq<int>)
    requires st.pos < |st.res| && st.res[st.pos].sessions.Some?
    requires st.secondary < |st.res[st.pos].sessions.value|
  {
    var ss := st.res[st.pos].sessions.value;
    st'.pos == st.pos && st'.secondary == st.secondary + 1 &&
    |st'.res| == |st.res| &&
    (forall j :: 0 <= j < |st.res| && j != st.pos ==> st'.res[j] == st.res[j]) &&
    st'.res[st.pos].name == st.res[st.pos].name &&
    st'.res[st.pos].sessions.Some? &&
    var ss' := st'.res[st.pos].sessions.value;
    |ss'| == |ss| &&
    (forall k :: 0 <= k < |ss| && k != st.secondary ==> ss'[k] == ss[k]) &&
    ss'[st.secondary] == ss[st.secondary].(occurrence := Some(weeks))
  }

  /** An occurrence line: a week list `int()` cannot read raises
      ValueError; then no entry raises IndexError, an entry without
      sessions KeyError, and as many occurrence lines as sessions already
      IndexError; otherwise the week list goes to session `secondary` and
      `secondary` moves on. */
  lemma {:induction false} OccurLine(st: ParseState, l: string)
    requires Valid(st) && MatchOccur(l).Some? && !IsNoLecture(l)
    ensures ConvertOccur(MatchOccur(l).value).Failure? ==> Step(st, l) == Crash(ValueError)
    ensures ConvertOccur(MatchOccur(l).value).Success? ==>
              (st.res == [] ==> Step(st, l) == Crash(IndexError)) &&
              (st.res != [] && st.res[st.pos].sessions.None? ==> Step(st, l) == Crash(KeyError)) &&
              (st.res != [] && st.res[st.pos].sessions.Some? &&
               st.secondary == |st.res[st.pos].sessions.value| ==>
                 Step(st, l) == Crash(IndexError)) &&
              (st.res != [] && st.res[st.pos].sessions.Some? &&
               st.secondary < |st.res[st.pos].sessions.value| ==>
                 Step(st, l).Continue? &&
                 OccurUpdated(st, Step(st, l).st, ConvertOccur(MatchOccur(l).value).value))
  {
    TimeOrOccur(l);
    var m := Recognise(l);
    assert Step(st, l) == OccurStep(st, m.occur.value);
    OccurWithCases(st, ConvertOccur(m.occur.value));
  }

  lemma {:induction false} OccurWithCases(st: ParseState, conv: Result<seq<int>, PyError>)
    requires Valid(st) && (conv.Failure? ==> conv.error == ValueError)
    ensures conv.Failure? ==> OccurWith(st, conv) == Crash(ValueError)
    ensures conv.Success? ==>
              (st.res == [] ==> OccurWith(st, conv) == Crash(IndexError)) &&
              (st.res != [] && st.res[st.pos].sessions.None? ==> OccurWith(st, conv) == Crash(KeyError)) &&
              (st.res != [] && st.res[st.pos].sessions.Some? &&
               st.secondary == |st.res[st.pos].sessions.value| ==>
                 OccurWith(st, conv) == Crash(IndexError)) &&
              (st.res != [] && st.res[st.pos].sessions.Some? &&
               st.secondary < |st.res[st.pos].sessions.value| ==>
                 OccurWith(st, conv).Continue? &&
                 OccurUpdated(st, OccurWith(st, conv).st, conv.value))
  {
  }

  // ---------------------------------------------------------------------
  // Whole inputs
  // ---------------------------------------------------------------------

  /** `timeparse` returns `u'null'` exactly when some no-lecture line is
      reached, that is, no line before it raised; the entries built so
      far and the lines after it make no difference. */
  lemma {:induction false} NoLecture(lines: seq<string>)
    ensures TimeParse(lines) == Success(NoSessions) <==>
              exists k :: 0 <= k < |lines| && IsNoLecture(lines[k]) &&
                          Advance(Continue(Init), lines[..k]).Continue?
  {
    NullWhen(Continue(Init), lines);
  }

  lemma {:induction false} NullWhen(p: Progress, lines: seq<string>)
    ensures Advance(p, lines) == Null <==>
              (p == Null ||
               exists k :: 0 <= k < |lines| && IsNoLecture(lines[k]) && Advance(p, lines[..k]).Continue?)
    decreases |lines|
  {
    if lines != [] && p.Continue? {
      var l := lines[0];
      var rest := lines[1..];
      var q := Step(p.st, l);
      NullWhen(q, rest);
      StepNull(p.st, l);
      assert lines[..0] == [];
      forall k | 0 <= k < |rest|
        ensures Advance(p, lines[..k + 1]) == Advance(q, rest[..k])
      {
        assert lines[..k + 1] == [l] + rest[..k];
        AdvanceStep(p.st, l, rest[..k]);
      }
      if Advance(p, lines) == Null && q != Null {
        var k :| 0 <= k < |rest| && IsNoLecture(rest[k]) && Advance(q, rest[..k]).Continue?;
        assert lines[k + 1] == rest[k];
      }
      if exists k :: 0 <= k < |lines| && IsNoLecture(lines[k]) && Advance(p, lines[..k]).Continue? {
        var k :| 0 <= k < |lines| && IsNoLecture(lines[k]) && Advance(p, lines[..k]).Continue?;
        if k > 0 {
          assert rest[k - 1] == lines[k];
        }
      }
    }
  }

  /** The names of the entries, in order. */
  function Names(res: seq<ClassEntry>): (ns: seq<string>)
    ensures |ns| == |res|
    ensures forall j :: 0 <= j < |res| ==> ns[j] == res[j].name
  {
    seq(|res|, j requires 0 <= j < |res| => res[j].name)
  }

  /** The lines that name a class: those no pattern of the loop matches. */
  function HeadingLines(lines: seq<string>): seq<string>
  {
    if lines == [] then [] else NameOf(lines[0]) + HeadingLines(lines[1..])
  }

  /** The name a line adds: itself when it is a heading, none otherwise. */
  function NameOf(l: string): seq<string>
  {
    if IsHeading(Recognise(l)) then [l] else []
  }

  /** Setting the sessions of one entry keeps every name. */
  lemma {:induction false} SessionsKeepNames(res: seq<ClassEntry>, pos: nat, e: ClassEntry)
    requires pos < |res| && e.name == res[pos].name
    ensures Names(res[pos := e]) == Names(res)
  {
  }

  /** A time line that goes on keeps every name. */
  lemma {:induction false} TimeStepNames(st: ParseState, tm: TimeMatch)
    requires TimeStep(st, tm).Continue?
    ensures Names(TimeStep(st, tm).st.res) == Names(st.res)
  {
    var s := NewSession(tm);
    var e := st.res[st.pos];
    if st.secondary == 0 {
      SessionsKeepNames(st.res, st.pos, e.(sessions := Some([s])));
    } else {
      SessionsKeepNames(st.res, st.pos, e.(sessions := Some(e.sessions.value + [s])));
    }
  }

  /** An occurrence line that goes on keeps every name. */
  lemma {:induction false} OccurWithNames(st: ParseState, conv: Result<seq<int>, PyError>)
    requires OccurWith(st, conv).Continue?
    ensures Names(OccurWith(st, conv).st.res) == Names(st.res)
  {
    var e := st.res[st.pos];
    var ss := e.sessions.value;
    SessionsKeepNames(st.res, st.pos,
      e.(sessions := Some(ss[st.secondary := ss[st.secondary].(occurrence := Some(conv.value))])));
  }

  /** A line that goes on appends its name when it is a heading and
      keeps the names otherwise. */
  lemma {:induction false} StepNames(st: ParseState, l: string)
    requires Step(st, l).Continue?
    ensures Names(Step(st, l).st.res) == Names(st.res) + NameOf(l)
  {
    var m := Recognise(l);
    var h := AfterHeading(st, l, m);
    assert Names(h.res) == Names(st.res) + NameOf(l);
    var t := AfterTime(h, m);
    assert t.Continue?;
    if m.time.Some? {
      TimeStepNames(h, m.time.value);
    }
    if m.occur.Some? {
      OccurWithNames(t.st, ConvertOccur(m.occur.value));
    }
  }

  lemma {:induction false} AdvanceNames(st: ParseState, lines: seq<string>)
    requires Advance(Continue(st), lines).Continue?
    ensures Names(Advance(Continue(st), lines).st.res) == Names(st.res) + HeadingLines(lines)
    decreases |lines|
  {
    if lines == [] {
      assert Names(st.res) + [] == Names(st.res);
    } else {
      var q := Step(st, lines[0]);
      StepNames(st, lines[0]);
      AdvanceNames(q.st, lines[1..]);
      AppendAssoc(Names(st.res), NameOf(lines[0]), HeadingLines(lines[1..]));
    }
  }

  /** When `timeparse` returns a list, its entries are named by the
      heading lines, one each, in input order: time, occurrence and ballot
      lines add no entry and rename none. */
  lemma {:induction false} HeadingsInOrder(lines: seq<string>)
    requires TimeParse(lines).Success? && TimeParse(lines).value.Entries?
    ensures Names(TimeParse(lines).value.entries) == HeadingLines(lines)
  {
    AdvanceNames(Init, lines);
    assert Names(Init.res) == [];
  }

  /** A time line with no occurrence line between it and the heading
      does not add a session: it replaces the list, so of two such time
      lines only the second is kept. */
  lemma {:induction false} OverwriteQuirk(h: string, t1: string, t2: string)
    requires IsHeading(Recognise(h)) && !IsNoLecture(h)
    requires MatchTime(t1).Some? && !IsNoLecture(t1)
    requires MatchTime(t2).Some? && !IsNoLecture(t2)
    ensures TimeParse([h, t1, t2]) ==
              Success(Entries([ClassEntry(h, Some([NewSession(MatchTime(t2).value)]))]))
  {
    var e := ClassEntry(h, None);
    var e1 := e.(sessions := Some([NewSession(MatchTime(t1).value)]));
    FirstHeading(h);
    FirstTimeLine(e, t1);
    FirstTimeLine(e1, t2);
    ParseThree(ParseState([e], 0, 0), ParseState([e1], 0, 0),
               ParseState([e.(sessions := Some([NewSession(MatchTime(t2).value)]))], 0, 0), h, t1, t2);
  }

  /** A heading as the first line opens the only entry. */
  lemma {:induction false} FirstHeading(h: string)
    requires IsHeading(Recognise(h)) && !IsNoLecture(h)
    ensures Step(Init, h) == Continue(ParseState([ClassEntry(h, None)], 0, 0))
  {
    HeadingLine(Init, h);
    assert [] + [ClassEntry(h, None)] == [ClassEntry(h, None)];
  }

  /** A time line on a single entry with `secondary == 0` sets its list
      to one session. */
  lemma {:induction false} FirstTimeLine(e: ClassEntry, t: string)
    requires MatchTime(t).Some? && !IsNoLecture(t)
    ensures Step(ParseState([e], 0, 0), t) ==
              Continue(ParseState([e.(sessions := Some([NewSession(MatchTime(t).value)]))], 0, 0))
  {
    StepIsTime(ParseState([e], 0, 0), t);
    FirstTime(e, MatchTime(t).value);
  }

  /** A time line on a fresh entry with `secondary == 0` sets its list to one session. */
  lemma {:induction false} FirstTime(e: ClassEntry, tm: TimeMatch)
    ensures TimeStep(ParseState([e], 0, 0), tm) ==
              Continue(ParseState([e.(sessions := Some([NewSession(tm)]))], 0, 0))
  {
    assert [e][0 := e.(sessions := Some([NewSession(tm)]))] == [e.(sessions := Some([NewSession(tm)]))];
  }

  lemma {:induction false} ParseThree(s1: ParseState, s2: ParseState, s3: ParseState, a: string, b: string, c: string)
    requires Step(Init, a) == Continue(s1) && Step(s1, b) == Continue(s2) && Step(s2, c) == Continue(s3)
    ensures TimeParse([a, b, c]) == Success(Entries(s3.res))
  {
    AdvanceThree(Init, s1, s2, s3, a, b, c);
  }

  lemma {:induction false} AdvanceThree(s0: ParseState, s1: ParseState, s2: ParseState, s3: ParseState,
                     a: string, b: string, c: string)
    requires Step(s0, a) == Continue(s1) && Step(s1, b) == Continue(s2) && Step(s2, c) == Continue(s3)
    ensures Advance(Continue(s0), [a, b, c]) == Continue(s3)
  {
    AdvanceStep(s0, a, [b, c]);
    AdvanceStep(s1, b, [c]);
    AdvanceStep(s2, c, []);
    assert [a] + [b, c] == [a, b, c] && [b] + [c] == [b, c] && [c] + [] == [c];
  }
}
