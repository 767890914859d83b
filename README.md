# cors-api timetable parser, modelled in Dafny

The spider of `cors-api` scrapes course pages of a university's course
registration system. Apart from the Scrapy wiring, its logic is a set of
module-level helpers in `cors/spiders/cors_spider.py`. This project models them:

- `timeparse`, the line-by-line state machine. It turns the text lines of a
  lecture or tutorial table into a list of class entries, each with its
  sessions. Module `TimetableParser` holds it as a loop (`ParseTimetable`) over
  the variables `res`, `pos` and `secondary`. The loop is proved equal to a fold
  of one-line steps (`TimeParse`). Module `TimetableLayout` proves what the fold
  gives on the page layout the parser was written for.
- The four regular expressions `timeparse` applies with `re.match`. Module
  `Recognisers` writes them as string predicates and decoders. Each is proved
  equivalent to a plain description of the lines it accepts.
- `convert_day` and `convert_occur` (module `Converters`).
- `process_exam_date`, together with the part of `datetime.date` it relies on
  (module `ExamDates`).
- `clean`, which normalises whitespace and escapes non-ASCII characters as
  `&#N;` (module `Cleaning`).
- The field defaulting of `parse_module`, taken over the lists of text the page
  selectors return (module `ModulePage`).

Supporting modules:

- `Strings` models the Python built-ins the code calls: `split()`, `strip()`,
  `join` and `split(c)`. It proves the laws the other modules use.
- `Numerals` models `int()` and `str()`/`'%0Nd'` on decimal numerals.
- `Wrappers` holds `Option`, `Result` and the Python exceptions that can escape
  (`IndexError`, `KeyError`, `ValueError`, `OverflowError`).

The model keeps the code's quirks:

- A heading with no time line has no `sessions` key. A session has no
  `occurence` key until an occurrence line sets it. Both are `Option` fields.
- A time line read while `secondary == 0` replaces the session list
  (`OverwriteQuirk`).
- The heading, time and occurrence cases are three separate `if`s, each acting
  on the state the previous one left.
- An exception becomes a `Failure` outcome, never a precondition.

Where the code and its documentation disagree, the model follows the code:

- The docstring of `timeparse` shows one session located at `AK12`. The code
  gives two sessions located at `AKI2` (`TimetableLayout.DocstringExample`).
- `process_exam_date` catches only `IndexError`. A date part that is not a
  numeral, or three numerals that do not form a calendar date, raise
  `ValueError` (or `OverflowError`). They do not fall back to the raw string.
- `process_exam_date` reads only the first three `-` parts of the first token
  and the second token. Extra parts and tokens are ignored.
- A missing exam becomes the string `null`, which `process_exam_date` returns
  unchanged.

## Model

| member | source | states |
|---|---|---|
| `Cleaning.Clean` | cors/spiders/cors_spider.py:11-15 | the result is ASCII, single-spaced with no space at either end, and its words are the input's whitespace-separated words, in order, each with its non-ASCII characters escaped |
| `Cleaning.CleanIdempotent` | cors/spiders/cors_spider.py:11-15 | cleaning a cleaned text changes nothing |
| `Cleaning.CleanAscii` | cors/spiders/cors_spider.py:11-15 | on ASCII text, cleaning only joins the words with single spaces |
| `Cleaning.EscapeCharReads` | cors/spiders/cors_spider.py:15 | a non-ASCII code point becomes `&#`, the canonical decimal numeral whose value is the code point (the only such numeral), and `;` |
| `Cleaning.Escape` | cors/spiders/cors_spider.py:15 | `xmlcharrefreplace` output is ASCII and adds no whitespace to text that has none |
| `Cleaning.EscapeAppend` | cors/spiders/cors_spider.py:15 | the encoder works character by character: escaping a concatenation is the concatenation of the escaped parts |
| `Cleaning.EscapeJoin` | cors/spiders/cors_spider.py:15 | escaping the joined text equals joining the escaped words |
| `Strings.SplitKeepsCharacters` | cors/spiders/cors_spider.py:15 | `split()` drops only whitespace: its words concatenated are the non-whitespace characters of the input, in order |
| `Strings.SplitJoin` | cors/spiders/cors_spider.py:15 | words joined by single spaces split back into the same words |
| `Strings.StripWords` | cors/spiders/cors_spider.py:181 | `strip()` keeps the words of the text |
| `Strings.StripIdempotent` | cors/spiders/cors_spider.py:190-191 | stripping a stripped string changes nothing |
| `Strings.SplitOn` | cors/spiders/cors_spider.py:25 | `split(c)` gives at least one piece, no piece holds `c`, and joining the pieces with `c` gives the input back |
| `Strings.SplitOnJoin` | cors/spiders/cors_spider.py:55 | pieces without `c`, joined with `c`, split back into the same pieces |
| `Numerals.ParseDigits` | cors/spiders/cors_spider.py:26 | `int()` reads any ASCII digit string, leading zeros included, as its decimal value |
| `Numerals.ParsePadded` | cors/spiders/cors_spider.py:26 | `int()` reads a zero-padded numeral back as the number it was written from |
| `Numerals.ValueShowNat` | cors/spiders/cors_spider.py:15 | writing the value of a canonical numeral gives the numeral back, so the `&#N;` numeral of a code point is the only canonical one |
| `ExamDates.MakeDate` | cors/spiders/cors_spider.py:26 | `date(y, m, d)` succeeds exactly for calendar dates in years 1 to 9999; an argument outside the C `int` range raises OverflowError, and any other invalid date raises ValueError |
| `ExamDates.ReadDate` | cors/spiders/cors_spider.py:26 | on success, the year, month and day are `int()` of parts 2, 1 and 0 and form a valid date |
| `ExamDates.ProcessExamDate` | cors/spiders/cors_spider.py:17-28 | a raw result is the input itself; a parsed result carries the second token as its time; only OverflowError or ValueError escape |
| `ExamDates.ExamFallback` | cors/spiders/cors_spider.py:23-28 | the input comes back unchanged exactly when there is no token, the first token has fewer than three `-` parts, or it holds a valid date and no second token follows |
| `ExamDates.ExamRaises` | cors/spiders/cors_spider.py:23-28 | the call raises exactly when the first token has three or more `-` parts that do not read as a valid date |
| `ExamDates.ExamReads` | cors/spiders/cors_spider.py:24-26 | when parts 2, 1 and 0 read as a valid year, month and day and a second token exists, the result is that date in ISO form with the second token as time |
| `ExamDates.ExamDateParsed` | cors/spiders/cors_spider.py:17-28 | `"D-M-Y T"` with numeral parts forming a valid date gives the zero-padded ISO date and the label `T` |
| `ExamDates.ExamInvalidDate` | cors/spiders/cors_spider.py:26-27 | numerals that do not form a valid date raise ValueError, or OverflowError beyond the C `int` range, rather than returning the input |
| `ExamDates.ExamIgnoresExtras` | cors/spiders/cors_spider.py:24-26 | extra `-` parts after the year and extra tokens after the label do not change the result |
| `ExamDates.IsoFormatReads` | cors/spiders/cors_spider.py:26 | the ISO form splits on `-` into the padded year, month and day, which `int()` reads back as the date |
| `ExamDates.NullExam` | cors/spiders/cors_spider.py:181-183 | the placeholder `null` passes through `process_exam_date` unchanged |
| `Converters.ConvertDay` | cors/spiders/cors_spider.py:30-42 | the result is `k + 1` exactly for the k-th of `MONDAY`..`SUNDAY`, and `None` for every other string; it always lies in 1..7 when present |
| `Converters.ConvertOccur` | cors/spiders/cors_spider.py:44-55 | `EVERY WEEK` gives 1..13, `EVEN WEEK` 2, 4, ..., 12, `ODD WEEK` 1, 3, ..., 13; any other text gives one `int()` per comma-separated piece in input order, or ValueError if some piece is not a numeral |
| `Converters.ParseInts` | cors/spiders/cors_spider.py:55 | the list comprehension succeeds exactly when every piece reads, with one value per piece in order |
| `Converters.FilterMembers` | cors/spiders/cors_spider.py:51-53 | `filter` keeps exactly the elements satisfying the predicate |
| `Converters.EvenWeeks` | cors/spiders/cors_spider.py:51 | filtering the default weeks by evenness gives 2, 4, ..., 12 |
| `Converters.OddWeeks` | cors/spiders/cors_spider.py:53 | filtering the default weeks by oddness gives 1, 3, ..., 13 |
| `Converters.OccurRoundTrip` | cors/spiders/cors_spider.py:55 | a non-empty list of week numbers written with commas converts back to the same list, duplicates and order kept |
| `Recognisers.TimeMatches` | cors/spiders/cors_spider.py:88 | the time pattern matches with groups `tm` exactly when the line starts with `<day> From <start> hrs to <end> hrs in <location>,`, with a word-character day, digit times and a one-line location, and no comma follows on that line (the location runs to the last comma) |
| `Recognisers.TimeComplete` | cors/spiders/cors_spider.py:88 | every well-formed time text followed by a comma-free rest of line matches with exactly its groups |
| `Recognisers.TimeSound` | cors/spiders/cors_spider.py:88 | every match consists of the text of its groups followed by a comma-free rest of line |
| `Recognisers.OccurMatches` | cors/spiders/cors_spider.py:89 | the occurrence pattern matches with group `g` exactly when the line starts with `Week(s): `, then `g`, then `.`, and `g` holds no `.` and no line feed |
| `Recognisers.SearchLineFinds` | cors/spiders/cors_spider.py:90-91 | the `.*?p.*?` scan succeeds exactly when `p` occurs before the first line feed |
| `Recognisers.BallotMatches` | cors/spiders/cors_spider.py:90 | a ballot line is one where ` Tutorial Balloting ` occurs before the first line feed |
| `Recognisers.NoLectureMatches` | cors/spiders/cors_spider.py:91 | a no-lecture line is one where ` no lectures ` occurs before the first line feed |
| `Recognisers.OccurIsNotTime` | cors/spiders/cors_spider.py:88-89 | no line matches both the occurrence and the time pattern |
| `TimetableParser.ParseTimetable` | cors/spiders/cors_spider.py:57-141 | the loop over the lines, with `res`, `pos` and `secondary`, returns what the fold `TimeParse` of the one-line steps gives |
| `TimetableParser.ApplyLine` | cors/spiders/cors_spider.py:98-140 | one loop iteration: the no-lecture return, then the heading, time and occurrence `if`s in turn, equals the step function |
| `TimetableParser.AddSession` | cors/spiders/cors_spider.py:118-134 | the time case builds the session and sets or extends the current entry's list, or raises, as the step function says |
| `TimetableParser.SetWeeks` | cors/spiders/cors_spider.py:136-140 | the occurrence case stores the weeks in session `secondary` of entry `pos` and advances `secondary`, or raises, as the step function says |
| `TimetableParser.AdvanceAppend` | cors/spiders/cors_spider.py:97-141 | reading `a + b` is reading `a`, then `b` |
| `TimetableParser.StepNull` | cors/spiders/cors_spider.py:102-104 | a line makes the loop return `null` exactly when it is a no-lecture line |
| `TimetableParser.NoLecture` | cors/spiders/cors_spider.py:97-104 | the result is `null` exactly when some no-lecture line is reached without an earlier exception, whatever entries were built and whatever lines follow |
| `TimetableParser.StepValid` | cors/spiders/cors_spider.py:93-140 | every line keeps `pos` on the last entry and `secondary` within that entry's session count |
| `TimetableParser.Reachable` | cors/spiders/cors_spider.py:93-141 | the loop variables satisfy that invariant after any prefix of the input |
| `TimetableParser.HeadingLine` | cors/spiders/cors_spider.py:106-116 | a heading appends one entry named by the line with no sessions, after which `pos == len(res) - 1` and `secondary == 0` |
| `TimetableParser.BallotLine` | cors/spiders/cors_spider.py:100 | a ballot line that is neither a time nor an occurrence line leaves `res`, `pos` and `secondary` unchanged |
| `TimetableParser.TimeLine` | cors/spiders/cors_spider.py:118-134 | a time line before any entry raises IndexError; otherwise only the sessions of entry `pos` change, set to the new session when `secondary == 0` and extended by it otherwise, and the KeyError case cannot occur |
| `TimetableParser.OccurLine` | cors/spiders/cors_spider.py:136-140 | an unreadable week list raises ValueError; no entry raises IndexError; an entry without sessions raises KeyError; a cursor at the end of the list raises IndexError; otherwise only session `secondary` of entry `pos` gets its weeks and `secondary` grows by one |
| `TimetableParser.TimeOrOccur` | cors/spiders/cors_spider.py:98-99 | no line is both a time line and an occurrence line |
| `TimetableParser.HeadingsInOrder` | cors/spiders/cors_spider.py:106-116 | when a list is returned, its entries are named by the heading lines, one each, in input order |
| `TimetableParser.OverwriteQuirk` | cors/spiders/cors_spider.py:131-132 | a heading and two time lines give one entry holding only the second session |
| `TimetableLayout.SessionRuns` | cors/spiders/cors_spider.py:118-140 | a time line followed by its occurrence line appends one complete session to the current entry |
| `TimetableLayout.BlocksParse` | cors/spiders/cors_spider.py:57-141 | on the page layout (heading, then time and occurrence line pairs, then ballot notes, per class) the result is one entry per class in order, each with its sessions in order and their weeks filled in |
| `TimetableLayout.DocstringExample` | cors/spiders/cors_spider.py:59-82 | the docstring's six lines give one entry with two sessions, Monday and Thursday, 1400 to 1800 at `AKI2`, weeks 1..13 |
| `ModulePage.CodeField` | cors/spiders/cors_spider.py:193 | an absent code is `null`; otherwise the result has the words of the first text, single-spaced |
| `ModulePage.StripField` | cors/spiders/cors_spider.py:194 | an absent field is `null`; otherwise the result is the first text with only its leading and trailing whitespace cut off, so it is trimmed, keeps its inner whitespace and has the same words |
| `ModulePage.CleanField` | cors/spiders/cors_spider.py:195 | an absent field is `null`; otherwise the result is the cleaned first text, with the properties of `Clean` |
| `ModulePage.ExamField` | cors/spiders/cors_spider.py:181-185 | an absent exam or `No Exam Date.` gives `null`; any other stripped exam text goes through `process_exam_date` |
| `ModulePage.TableField` | cors/spiders/cors_spider.py:190-198 | an empty list gives `null` without parsing; a non-empty one gives `timeparse` of the stripped lines |
| `ModulePage.ParseModule` | cors/spiders/cors_spider.py:181-202 | the exam, lecture and tutorial fields are evaluated in that order and the first exception escapes; otherwise every field is its defaulted value |
| `ModulePage.EmptyPage` | cors/spiders/cors_spider.py:181-202 | a page with no text gives an item whose every field is `null` |

## Left out

- Crawling: the spider's name, allowed domains, start URLs and link-following rules. These are network configuration.
- Page selection: `HtmlXPathSelector` and the XPath `select(...).extract()` calls. The model takes the text lists they return as input (`ModulePage.Page`).
- `CorsItem`, the Scrapy item machinery, and the pipelines that store items. The pipelines are not part of this model.
- The unused `izip_longest` import.
- Update in place: `timeparse` mutates the dicts of `res` in place. The model updates sequence values instead. Each dict is created fresh inside the call, so no aliasing is lost.
- Byte encoding: `clean` returns a byte string. The model keeps it as a sequence of ASCII code points.
- Numerals.ParseInt: Python 2's `int()` of a unicode string also accepts non-ASCII decimal digits, which the model rejects with ValueError. The pages use ASCII digits only.
- The full semantics of Python's `re` module. Only the four patterns of `timeparse` are modelled, as written, without the UNICODE flag.
