/** The four regular expressions of `timeparse`
    (cors/spiders/cors_spider.py:88-91), each applied with `re.match`,
    which anchors the pattern at the start of the line only. Without the
    UNICODE flag `\w` is `[A-Za-z0-9_]`, `\d` is `[0-9]`, and `.`
    matches any character except a line feed. */
module Recognisers {
  import opened Wrappers
  import opened Numerals
  import opened Strings

  // ---------------------------------------------------------------------
  // Character classes and scanning helpers
  // ---------------------------------------------------------------------

  /** `\w` without the UNICODE flag. */
  predicate IsWordChar(c: char)
  {
    ('A' <= c <= 'Z') || ('a' <= c <= 'z') || ('0' <= c <= '9') || c == '_'
  }

  predicate AllWordChars(s: string)
  {
    forall i :: 0 <= i < |s| ==> IsWordChar(s[i])
  }

  /** The length of the run of `\w` characters that starts `s`. */
  function WordSpan(s: string): (n: nat)
    ensures n <= |s|
    ensures forall i :: 0 <= i < n ==> IsWordChar(s[i])
    ensures n == |s| || !IsWordChar(s[n])
  {
    if s == [] || !IsWordChar(s[0]) then 0 else 1 + WordSpan(s[1..])
  }

  /** The length of the run of `\d` characters that starts `s`. */
  function DigitSpan(s: string): (n: nat)
    ensures n <= |s|
    ensures forall i :: 0 <= i < n ==> IsDigit(s[i])
    ensures n == |s| || !IsDigit(s[n])
  {
    if s == [] || !IsDigit(s[0]) then 0 else 1 + DigitSpan(s[1..])
  }

  predicate StartsWith(s: string, p: string)
  {
    |p| <= |s| && s[..|p|] == p
  }

  /** The part of `s` before its first line feed: what `.` can cover. */
  function FirstLine(s: string): (r: string)
    ensures |r| <= |s| && r == s[..|r|] && '\n' !in r
    ensures |r| == |s| || s[|r|] == '\n'
  {
    if s == [] || s[0] == '\n' then []
    else
      var t := FirstLine(s[1..]);
      assert s[..1 + |t|] == [s[0]] + t;
      [s[0]] + t
  }

  /** The index of the last `c` in `s`, if any. */
  function LastIndex(s: string, c: char): (r: Option<nat>)
    ensures r.Some? ==> r.value < |s| && s[r.value] == c && c !in s[r.value + 1..]
    ensures r.None? ==> c !in s
  {
    if s == [] then None
    else if s[|s| - 1] == c then Some(|s| - 1)
    else
      var r := LastIndex(s[..|s| - 1], c);
      assert r.Some? ==> s[r.value + 1..] == s[..|s| - 1][r.value + 1..] + [s[|s| - 1]];
      assert r.None? ==> s == s[..|s| - 1] + [s[|s| - 1]];
      r
  }

  // ---------------------------------------------------------------------
  // The time pattern (cors/spiders/cors_spider.py:88)
  // ---------------------------------------------------------------------

  /** The four named groups of a time line. */
  datatype TimeMatch = TimeMatch(day: string, start: string, end: string, location: string)

  /** The groups a match of the time pattern can capture. */
  predicate TimeGroups(tm: TimeMatch)
  {
    tm.day != [] && AllWordChars(tm.day) &&
    IsDigits(tm.start) && IsDigits(tm.end) &&
    tm.location != [] && '\n' !in tm.location
  }

  /** The text the time pattern consumes for the groups `tm`. */
  function TimeText(tm: TimeMatch): string
  {
    tm.day + " From " + tm.start + " hrs to " + tm.end + " hrs in " + tm.location + ","
  }

  /** `\w+` followed by `lit`: the run of word characters and the text
      after `lit`. The run must be maximal when `lit` starts with a
      character outside `\w`, which is the case for ` From `. */
  function WordThen(s: string, lit: string): Option<(string, string)>
  {
    var n := WordSpan(s);
    if n == 0 || !StartsWith(s[n..], lit) then None else Some((s[..n], s[n + |lit|..]))
  }

  /** `\d+` followed by `lit`. */
  function DigitsThen(s: string, lit: string): Option<(string, string)>
  {
    var n := DigitSpan(s);
    if n == 0 || !StartsWith(s[n..], lit) then None else Some((s[..n], s[n + |lit|..]))
  }

  /** `.+,`: the greedy `.+` backs off to the last comma of the first
      line, and must keep at least one character. */
  function MatchLocation(g: string): Option<string>
  {
    match LastIndex(FirstLine(g), ',')
    case None => None
    case Some(k) => if k == 0 then None else Some(g[..k])
  }

  /** `time.match(l)`. */
  function MatchTime(l: string): Option<TimeMatch>
  {
    match WordThen(l, " From ")
    case None => None
    case Some((day, b)) =>
      match DigitsThen(b, " hrs to ")
      case None => None
      case Some((start, d)) =>
        match DigitsThen(d, " hrs in ")
        case None => None
        case Some((end, g)) =>
          match MatchLocation(g)
          case None => None
          case Some(loc) => Some(TimeMatch(day, start, end, loc))
  }

  // ---------------------------------------------------------------------
  // The occurrence pattern (cors/spiders/cors_spider.py:89)
  // ---------------------------------------------------------------------

  const WeekPrefix: string := "Week(s): "

  /** `occur.match(l).group(1)`: the lazy `.*?` stops at the first `.`,
      and cannot pass a line feed to reach it. */
  function MatchOccur(l: string): (r: Option<string>)
  {
    if !StartsWith(l, WeekPrefix) then None
    else
      var g := l[|WeekPrefix|..];
      match FirstIndex(g, '.')
      case None => None
      case Some(j) => if '\n' in g[..j] then None else Some(g[..j])
  }

  /** The index of the first `c` in `s`, if any. */
  function FirstIndex(s: string, c: char): (r: Option<nat>)
    ensures r.Some? ==> r.value < |s| && s[r.value] == c && c !in s[..r.value]
    ensures r.None? ==> c !in s
  {
    if s == [] then None
    else if s[0] == c then Some(0)
    else
      match FirstIndex(s[1..], c)
      case None => None
      case Some(j) =>
        assert s[..j + 1] == [s[0]] + s[1..][..j];
        Some(j + 1)
  }

  // ---------------------------------------------------------------------
  // The ballot and no-lecture patterns (cors/spiders/cors_spider.py:90-91)
  // ---------------------------------------------------------------------

  const BallotText: string := " Tutorial Balloting "
  const NoLectureText: string := " no lectures "

  /** How `re.match` runs `.*?p.*?`: try `p` at the current position,
      otherwise let `.*?` take one more character, which it cannot do
      at a line feed. */
  predicate SearchLine(s: string, p: string)
    decreases |s|
  {
    StartsWith(s, p) || (s != [] && s[0] != '\n' && SearchLine(s[1..], p))
  }

  /** `p` occurs at position `k` of `s`, and `.` can cover `s[..k]`. */
  predicate FoundAt(s: string, p: string, k: int)
  {
    0 <= k <= |s| && '\n' !in s[..k] && StartsWith(s[k..], p)
  }

  predicate IsBallot(l: string)
  {
    SearchLine(l, BallotText)
  }

  predicate IsNoLecture(l: string)
  {
    SearchLine(l, NoLectureText)
  }

  // ---------------------------------------------------------------------
  // Properties
  // ---------------------------------------------------------------------

  /** The line scan finds `p` exactly where the pattern `.*?p` can match. */
  lemma {:induction false} SearchLineFinds(s: string, p: string)
    ensures SearchLine(s, p) <==> exists k :: FoundAt(s, p, k)
    decreases |s|
  {
    assert s[0..] == s && s[..0] == [];
    if StartsWith(s, p) {
      assert FoundAt(s, p, 0);
    } else if s == [] || s[0] == '\n' {
      assert forall k :: 0 < k <= |s| ==> s[..k][0] == '\n';
    } else {
      SearchLineFinds(s[1..], p);
      if SearchLine(s[1..], p) {
        var k :| FoundAt(s[1..], p, k);
        SliceTail(s, k);
        assert FoundAt(s, p, k + 1);
      }
      forall k | FoundAt(s, p, k) ensures SearchLine(s[1..], p) {
        SliceTail(s, k - 1);
        assert FoundAt(s[1..], p, k - 1);
      }
    }
  }

  /** Cutting the first element off `s` shifts every slice by one. */
  lemma {:induction false} SliceTail<T>(s: seq<T>, k: int)
    requires 0 <= k < |s|
    ensures s[..k + 1] == [s[0]] + s[1..][..k] && s[k + 1..] == s[1..][k..]
  {
  }

  /** A ballot line is one in which " Tutorial Balloting " occurs before
      the first line feed. */
  lemma {:induction false} BallotMatches(l: string)
    ensures IsBallot(l) <==> exists k :: FoundAt(l, BallotText, k)
  {
    SearchLineFinds(l, BallotText);
  }

  /** A no-lecture line is one in which " no lectures " occurs before the
      first line feed. */
  lemma {:induction false} NoLectureMatches(l: string)
    ensures IsNoLecture(l) <==> exists k :: FoundAt(l, NoLectureText, k)
  {
    SearchLineFinds(l, NoLectureText);
  }

  /** The occurrence pattern matches with group `g` exactly when the line
      starts with `Week(s): `, `g` and a full stop, and `g` holds neither a
      full stop nor a line feed. */
  lemma {:induction false} OccurMatches(l: string, g: string)
    ensures MatchOccur(l) == Some(g) <==>
              ('.' !in g && '\n' !in g && StartsWith(l, WeekPrefix + g + "."))
  {
    var w := |WeekPrefix|;
    if MatchOccur(l) == Some(g) {
      var h := l[w..];
      var j := FirstIndex(h, '.').value;
      assert g == h[..j];
      assert l[..w + j + 1] == WeekPrefix + h[..j] + [h[j]];
    }
    if '.' !in g && '\n' !in g && StartsWith(l, WeekPrefix + g + ".") {
      var rest := l[w + |g| + 1..];
      assert l == l[..w + |g| + 1] + rest;
      assert l[w..] == g + "." + rest;
      assert StartsWith(l, WeekPrefix);
      FirstIndexPrefix(g, '.', rest);
      assert l[w..][..|g|] == g;
    }
  }

  lemma {:induction false} FirstIndexPrefix(a: string, c: char, b: string)
    requires c !in a
    ensures FirstIndex(a + [c] + b, c) == Some(|a|)
  {
    var s := a + [c] + b;
    if a != [] {
      assert s[1..] == a[1..] + [c] + b;
      FirstIndexPrefix(a[1..], c, b);
    }
  }

  // ---------------------------------------------------------------------
  // The time pattern, both directions
  // ---------------------------------------------------------------------

  lemma {:induction false} WordSpanPrefix(a: string, b: string)
    requires AllWordChars(a) && b != [] && !IsWordChar(b[0])
    ensures WordSpan(a + b) == |a|
  {
    if a != [] {
      assert (a + b)[1..] == a[1..] + b;
      WordSpanPrefix(a[1..], b);
    }
  }

  lemma {:induction false} DigitSpanPrefix(a: string, b: string)
    requires AllDigits(a) && b != [] && !IsDigit(b[0])
    ensures DigitSpan(a + b) == |a|
  {
    if a != [] {
      assert (a + b)[1..] == a[1..] + b;
      DigitSpanPrefix(a[1..], b);
    }
  }

  lemma {:induction false} FirstLineAppend(a: string, b: string)
    requires '\n' !in a
    ensures FirstLine(a + b) == a + FirstLine(b)
  {
    if a == [] {
      assert a + b == b;
    } else {
      assert a[0] in a;
      assert (a + b)[0] == a[0] && (a + b)[1..] == a[1..] + b;
      FirstLineAppend(a[1..], b);
      assert FirstLine(a + b) == [a[0]] + FirstLine(a[1..] + b);
      assert a == [a[0]] + a[1..];
    }
  }

  lemma {:induction false} LastIndexSuffix(a: string, c: char, b: string)
    requires c !in b
    ensures LastIndex(a + [c] + b, c) == Some(|a|)
    decreases |b|
  {
    var s := a + [c] + b;
    if b != [] {
      assert s[..|s| - 1] == a + [c] + b[..|b| - 1];
      assert b[|b| - 1] in b;
      LastIndexSuffix(a, c, b[..|b| - 1]);
    }
  }

  lemma {:induction false} WordThenComplete(w: string, lit: string, rest: string)
    requires w != [] && AllWordChars(w) && lit != [] && !IsWordChar(lit[0])
    ensures WordThen(w + lit + rest, lit) == Some((w, rest))
  {
    var s := w + lit + rest;
    assert s == w + (lit + rest);
    WordSpanPrefix(w, lit + rest);
    assert s[..|w|] == w && s[|w|..] == lit + rest && s[|w| + |lit|..] == rest;
  }

  lemma {:induction false} WordThenSound(s: string, lit: string)
    requires WordThen(s, lit).Some?
    ensures var (w, rest) := WordThen(s, lit).value;
            w != [] && AllWordChars(w) && s == w + (lit + rest)
  {
    var n := WordSpan(s);
    assert s == s[..n] + s[n..n + |lit|] + s[n + |lit|..];
  }

  lemma {:induction false} DigitsThenComplete(ds: string, lit: string, rest: string)
    requires IsDigits(ds) && lit != [] && !IsDigit(lit[0])
    ensures DigitsThen(ds + lit + rest, lit) == Some((ds, rest))
  {
    var s := ds + lit + rest;
    assert s == ds + (lit + rest);
    DigitSpanPrefix(ds, lit + rest);
    assert s[..|ds|] == ds && s[|ds|..] == lit + rest && s[|ds| + |lit|..] == rest;
  }

  lemma {:induction false} DigitsThenSound(s: string, lit: string)
    requires DigitsThen(s, lit).Some?
    ensures var (ds, rest) := DigitsThen(s, lit).value;
            IsDigits(ds) && s == ds + (lit + rest)
  {
    var n := DigitSpan(s);
    assert s == s[..n] + s[n..n + |lit|] + s[n + |lit|..];
  }

  lemma {:induction false} LocationComplete(loc: string, rest: string)
    requires loc != [] && '\n' !in loc && ',' !in FirstLine(rest)
    ensures MatchLocation(loc + "," + rest) == Some(loc)
  {
    var g := loc + "," + rest;
    assert g == (loc + ",") + rest;
    FirstLineAppend(loc + ",", rest);
    LastIndexSuffix(loc, ',', FirstLine(rest));
    assert g[..|loc|] == loc;
  }

  lemma {:induction false} LocationSound(g: string)
    requires MatchLocation(g).Some?
    ensures var loc := MatchLocation(g).value;
            loc != [] && '\n' !in loc && |loc| < |g| &&
            g == loc + ("," + g[|loc| + 1..]) && ',' !in FirstLine(g[|loc| + 1..])
  {
    LocationCut(g, LastIndex(FirstLine(g), ',').value);
  }

  /** Cutting `g` at a comma `k` of its first line, after which that line
      has no comma. */
  lemma {:induction false} LocationCut(g: string, k: nat)
    requires k < |FirstLine(g)| && FirstLine(g)[k] == ',' && ',' !in FirstLine(g)[k + 1..]
    ensures '\n' !in g[..k] && g == g[..k] + ("," + g[k + 1..]) && ',' !in FirstLine(g[k + 1..])
  {
    var line := FirstLine(g);
    assert g[..k] == line[..k];
    var rest := g[k + 1..];
    assert g == g[..k + 1] + rest;
    assert g[..k + 1] == line[..k] + ",";
    FirstLineAppend(line[..k] + ",", rest);
    assert line[k + 1..] == FirstLine(rest);
  }

  /** Every line consisting of the text of well-formed groups, followed by
      a first line without a comma, is a time line with those groups. */
  lemma {:induction false} TimeComplete(tm: TimeMatch, rest: string)
    requires TimeGroups(tm) && ',' !in FirstLine(rest)
    ensures MatchTime(TimeText(tm) + rest) == Some(tm)
  {
    var g := tm.location + "," + rest;
    var d := tm.end + " hrs in " + g;
    var b := tm.start + " hrs to " + d;
    TimeTextNested(tm, rest);
    WordThenComplete(tm.day, " From ", b);
    DigitsThenComplete(tm.start, " hrs to ", d);
    DigitsThenComplete(tm.end, " hrs in ", g);
    LocationComplete(tm.location, rest);
  }

  /** The text of a time line, grouped the way the pattern reads it. */
  lemma {:induction false} TimeTextNested(tm: TimeMatch, rest: string)
    ensures TimeText(tm) + rest ==
            tm.day + " From " + (tm.start + " hrs to " + (tm.end + " hrs in " + (tm.location + "," + rest)))
  {
    var x1 := tm.day + " From ";
    var x2 := x1 + tm.start;
    var x3 := x2 + " hrs to ";
    var x4 := x3 + tm.end;
    var x5 := x4 + " hrs in ";
    var x6 := x5 + tm.location;
    var g := tm.location + "," + rest;
    var d := tm.end + " hrs in " + g;
    var b := tm.start + " hrs to " + d;
    assert TimeText(tm) == x6 + ",";
    AppendAssoc(x6, ",", rest);
    AppendAssoc(x5, tm.location, "," + rest);
    AppendAssoc(tm.location, ",", rest);
    AppendAssoc(x4, " hrs in ", g);
    AppendAssoc(x3, tm.end, " hrs in " + g);
    AppendAssoc(tm.end, " hrs in ", g);
    AppendAssoc(x2, " hrs to ", d);
    AppendAssoc(x1, tm.start, " hrs to " + d);
    AppendAssoc(tm.start, " hrs to ", d);
  }

  /** Every match of the time pattern consists of the text of its groups,
      followed by a first line without a comma. */
  lemma {:induction false} TimeSound(l: string)
    requires MatchTime(l).Some?
    ensures TimeGroups(MatchTime(l).value)
    ensures StartsWith(l, TimeText(MatchTime(l).value))
    ensures ',' !in FirstLine(l[|TimeText(MatchTime(l).value)|..])
  {
    var tm := MatchTime(l).value;
    WordThenSound(l, " From ");
    var (day, b) := WordThen(l, " From ").value;
    DigitsThenSound(b, " hrs to ");
    var (start, d) := DigitsThen(b, " hrs to ").value;
    DigitsThenSound(d, " hrs in ");
    var (end, g) := DigitsThen(d, " hrs in ").value;
    LocationSound(g);
    var loc := MatchLocation(g).value;
    assert tm == TimeMatch(day, start, end, loc);
    var rest := g[|loc| + 1..];
    TimeTextParts(tm, rest);
    assert l[..|TimeText(tm)|] == TimeText(tm) && l[|TimeText(tm)|..] == rest;
  }

  lemma {:induction false} TimeTextParts(tm: TimeMatch, rest: string)
    ensures TimeText(tm) + rest ==
              tm.day + (" From " + (tm.start + (" hrs to " + (tm.end + (" hrs in " +
                (tm.location + ("," + rest)))))))
  {
  }

  /** `time.match(l)` succeeds with groups `tm` exactly when `l` starts
      with the text of `tm`, the groups are of the forms the pattern
      allows, and no comma follows on the same line. */
  lemma {:induction false} TimeMatches(l: string, tm: TimeMatch)
    ensures MatchTime(l) == Some(tm) <==>
              (TimeGroups(tm) && StartsWith(l, TimeText(tm)) &&
               ',' !in FirstLine(l[|TimeText(tm)|..]))
  {
    if MatchTime(l) == Some(tm) {
      TimeSound(l);
    }
    if TimeGroups(tm) && StartsWith(l, TimeText(tm)) && ',' !in FirstLine(l[|TimeText(tm)|..]) {
      var rest := l[|TimeText(tm)|..];
      assert l == TimeText(tm) + rest;
      TimeComplete(tm, rest);
    }
  }

  /** An occurrence line is never a time line: after the word `Week`
      comes `(`, not ` From `. */
  lemma {:induction false} OccurIsNotTime(l: string)
    requires MatchOccur(l).Some?
    ensures MatchTime(l).None?
  {
    assert l[..|WeekPrefix|] == WeekPrefix;
    assert l == "Week" + l[4..];
    assert l[4] == '(';
    WordSpanPrefix("Week", l[4..]);
    assert !StartsWith(l[4..], " From ");
  }

  /** Every character of `p` occurs in a line in which the scan finds `p`. */
  lemma {:induction false} SearchLineChars(s: string, p: string)
    ensures SearchLine(s, p) ==> forall j :: 0 <= j < |p| ==> p[j] in s
    decreases |s|
  {
    if StartsWith(s, p) {
      forall j | 0 <= j < |p| ensures p[j] in s {
        assert s[..|p|][j] == s[j];
      }
    } else if s != [] && s[0] != '\n' {
      SearchLineChars(s[1..], p);
      forall j | 0 <= j < |p| && SearchLine(s[1..], p) ensures p[j] in s {
        var i :| 0 <= i < |s[1..]| && s[1..][i] == p[j];
        assert s[i + 1] == p[j];
      }
    }
  }

  /** A time line contains `F`, from ` From `. */
  lemma {:induction false} TimeHasFrom(l: string)
    ensures MatchTime(l).Some? ==> 'F' in l
  {
    if MatchTime(l).Some? {
      TimeSound(l);
      TextHasFrom(l, MatchTime(l).value);
    }
  }

  lemma {:induction false} TextHasFrom(l: string, tm: TimeMatch)
    requires StartsWith(l, TimeText(tm))
    ensures 'F' in l
  {
    var k := |tm.day| + 1;
    var x := tm.day + " From ";
    assert x[k] == 'F';
    assert TimeText(tm)[k] == x[k];
    assert l[k] == TimeText(tm)[k];
  }

  /** An occurrence line starts with `W`, from `Week(s): `. */
  lemma {:induction false} OccurHasWeek(l: string)
    ensures MatchOccur(l).Some? ==> l != [] && l[0] == 'W'
  {
    if MatchOccur(l).Some? {
      assert l[..|WeekPrefix|][0] == l[0];
    }
  }
}
