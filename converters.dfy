/** `convert_day` and `convert_occur` (cors/spiders/cors_spider.py:30-55). */
module Converters {
  import opened Wrappers
  import opened Strings
  import opened Numerals

  /** The weekday names as the registration pages print them; the day
      numbered `k + 1` is `DayNames[k]`. */
  const DayNames: seq<string> :=
    ["MONDAY", "TUESDAY", "WEDNESDAY", "THURSDAY", "FRIDAY", "SATURDAY", "SUNDAY"]

  /** The `mapping` dictionary of `convert_day`. */
  const DayNumbers: map<string, int> :=
    map["MONDAY" := 1, "TUESDAY" := 2, "WEDNESDAY" := 3, "THURSDAY" := 4,
        "FRIDAY" := 5, "SATURDAY" := 6, "SUNDAY" := 7]

  /** `convert_day(day)`: `mapping.get(day, None)`. */
  function ConvertDay(day: string): (r: Option<int>)
    ensures r.Some? ==> 1 <= r.value <= 7
    ensures forall k :: 0 <= k < 7 ==> (r == Some(k + 1) <==> day == DayNames[k])
    ensures r.None? <==> day !in DayNames
  {
    if day in DayNumbers then Some(DayNumbers[day]) else None
  }

  /** The thirteen teaching weeks of a term (`def_weeks`). */
  const DefWeeks: seq<int> := [1, 2, 3, 4, 5, 6, 7, 8, 9, 10, 11, 12, 13]

  /** Python 2's `filter(p, s)` on a list. */
  function Filter(p: int -> bool, s: seq<int>): seq<int>
  {
    if s == [] then []
    else (if p(s[0]) then [s[0]] else []) + Filter(p, s[1..])
  }

  /** The two lambdas `convert_occur` filters the weeks with. */
  predicate Even(x: int)
  {
    x % 2 == 0
  }

  predicate Odd(x: int)
  {
    x % 2 != 0
  }

  /** `filter` keeps exactly the elements that satisfy `p`. */
  lemma {:induction false} FilterMembers(p: int -> bool, s: seq<int>)
    ensures forall x :: x in Filter(p, s) <==> x in s && p(x)
  {
    if s != [] {
      FilterMembers(p, s[1..]);
      assert s == [s[0]] + s[1..];
    }
  }

  /** `r` is what reading each of `pieces` with `int()` gives: one integer
      per piece, in order, when every piece is a numeral, and ValueError
      otherwise. */
  predicate Numbered(pieces: seq<string>, r: Result<seq<int>, PyError>)
  {
    (r.Success? <==> forall i :: 0 <= i < |pieces| ==> ParseInt(pieces[i]).Success?) &&
    (r.Success? ==>
       |r.value| == |pieces| &&
       forall i :: 0 <= i < |pieces| ==> ParseInt(pieces[i]) == Success(r.value[i])) &&
    (r.Failure? ==> r.error == ValueError)
  }

  /** `[int(e) for e in pieces]`: the first piece that is not a numeral
      raises ValueError. */
  function ParseInts(pieces: seq<string>): (r: Result<seq<int>, PyError>)
    ensures Numbered(pieces, r)
  {
    if pieces == [] then Success([])
    else
      match ParseInt(pieces[0])
      case Failure(e) => Failure(e)
      case Success(v) =>
        var rest := ParseInts(pieces[1..]);
        NumberedCons(pieces, v, rest);
        match rest
        case Failure(e) => Failure(e)
        case Success(vs) => Success([v] + vs)
  }

  /** One step of the comprehension: a first piece that reads as `v`,
      followed by the rest read as `rest`. */
  lemma {:induction false} NumberedCons(pieces: seq<string>, v: int, rest: Result<seq<int>, PyError>)
    requires pieces != [] && ParseInt(pieces[0]) == Success(v) && Numbered(pieces[1..], rest)
    ensures rest.Failure? ==> Numbered(pieces, Failure(rest.error))
    ensures rest.Success? ==> Numbered(pieces, Success([v] + rest.value))
  {
    if rest.Failure? {
      NumberedConsFails(pieces, rest.error);
    } else {
      NumberedConsReads(pieces, v, rest.value);
    }
  }

  /** A later piece that does not read makes the whole list fail. */
  lemma {:induction false} NumberedConsFails(pieces: seq<string>, e: PyError)
    requires pieces != [] && Numbered(pieces[1..], Failure(e))
    ensures Numbered(pieces, Failure(e))
  {
    var i :| 0 <= i < |pieces[1..]| && ParseInt(pieces[1..][i]).Failure?;
    assert pieces[1..][i] == pieces[i + 1];
  }

  /** A first value followed by the values of the later pieces. */
  lemma {:induction false} NumberedConsReads(pieces: seq<string>, v: int, vs: seq<int>)
    requires pieces != [] && ParseInt(pieces[0]) == Success(v) && Numbered(pieces[1..], Success(vs))
    ensures Numbered(pieces, Success([v] + vs))
  {
    var r := [v] + vs;
    var tail := pieces[1..];
    assert |r| == |pieces|;
    forall i | 0 <= i < |pieces| ensures ParseInt(pieces[i]) == Success(r[i]) {
      if i > 0 {
        assert ParseInt(tail[i - 1]) == Success(vs[i - 1]);
        assert pieces[i] == tail[i - 1] && r[i] == vs[i - 1];
      }
    }
  }

  predicate IsWeekKeyword(text: string)
  {
    text == "EVERY WEEK" || text == "EVEN WEEK" || text == "ODD WEEK"
  }

  /** `convert_occur(text)`: the three keywords name fixed week lists; any
      other text is read as comma-separated integers, in the order given,
      with no sorting, no de-duplication and no range check. */
  function ConvertOccur(text: string): (r: Result<seq<int>, PyError>)
    ensures text == "EVERY WEEK" ==> r == Success(seq(13, i => i + 1))
    ensures text == "EVEN WEEK" ==> r == Success(ByTwos(2, 6))
    ensures text == "ODD WEEK" ==> r == Success(ByTwos(1, 7))
    ensures !IsWeekKeyword(text) ==> Numbered(SplitOn(text, ','), r)
    ensures r.Failure? ==> r.error == ValueError
  {
    if text == "EVERY WEEK" then
      assert DefWeeks == seq(13, i => i + 1);
      Success(DefWeeks)
    else if text == "EVEN WEEK" then
      EvenWeeks();
      Success(Filter(Even, DefWeeks))
    else if text == "ODD WEEK" then
      OddWeeks();
      Success(Filter(Odd, DefWeeks))
    else
      var pieces := SplitOn(text, ',');
      var r := ParseInts(pieces);
      r
  }

  /** `range(lo, hi)`. */
  function Range(lo: int, hi: int): (r: seq<int>)
    decreases hi - lo
  {
    if lo >= hi then [] else [lo] + Range(lo + 1, hi)
  }

  lemma {:induction false} RangeIs(lo: int, hi: int)
    requires lo <= hi
    ensures Range(lo, hi) == seq(hi - lo, i => lo + i)
    decreases hi - lo
  {
    if lo < hi {
      RangeIs(lo + 1, hi);
      assert Range(lo, hi) == [lo] + Range(lo + 1, hi);
    }
  }

  /** `n` numbers counting up by twos from `e`. */
  function ByTwos(e: int, n: nat): seq<int>
  {
    seq(n, i => e + 2 * i)
  }

  lemma {:induction false} ByTwosCons(e: int, n: nat)
    ensures [e] + ByTwos(e + 2, n) == ByTwos(e, n + 1)
  {
    var l := [e] + ByTwos(e + 2, n);
    forall i | 0 <= i < n + 1 ensures l[i] == e + 2 * i {
      if i > 0 {
        assert l[i] == ByTwos(e + 2, n)[i - 1] == e + 2 + 2 * (i - 1);
      }
    }
  }

  /** Stepping past one element of `filter`. */
  lemma {:induction false} FilterCons(p: int -> bool, x: int, t: seq<int>)
    ensures Filter(p, [x] + t) == (if p(x) then [x] else []) + Filter(p, t)
  {
    assert ([x] + t)[0] == x && ([x] + t)[1..] == t;
  }

  /** Two steps of `range`. */
  lemma {:induction false} RangeTwo(lo: int)
    requires lo + 2 <= 14
    ensures Range(lo, 14) == [lo] + ([lo + 1] + Range(lo + 2, 14))
  {
  }

  /** Two steps of `filter` over an even number and the odd one after it. */
  lemma {:induction false} FilterTwo(p: int -> bool, lo: int, t: seq<int>)
    requires p(lo) && !p(lo + 1)
    ensures Filter(p, [lo] + ([lo + 1] + t)) == [lo] + Filter(p, t)
  {
    FilterCons(p, lo, [lo + 1] + t);
    FilterCons(p, lo + 1, t);
    assert [] + Filter(p, t) == Filter(p, t);
  }

  /** The even numbers from the even `14 - 2 * k` to 13: `k` of them. */
  lemma {:induction false} EvenSuffix(k: nat)
    requires k <= 6
    ensures Filter(Even, Range(14 - 2 * k, 14)) == ByTwos(14 - 2 * k, k)
  {
    if k > 0 {
      var lo := 14 - 2 * k;
      EvenSuffix(k - 1);
      RangeTwo(lo);
      FilterTwo(Even, lo, Range(lo + 2, 14));
      ByTwosCons(lo, k - 1);
    }
  }

  /** The odd numbers from the odd `13 - 2 * k` to 13: `k + 1` of them. */
  lemma {:induction false} OddSuffix(k: nat)
    requires k <= 6
    ensures Filter(Odd, Range(13 - 2 * k, 14)) == ByTwos(13 - 2 * k, k + 1)
  {
    if k == 0 {
      assert Range(13, 14) == [13] + Range(14, 14);
      FilterCons(Odd, 13, []);
      assert ByTwos(13, 1) == [13];
    } else {
      var lo := 13 - 2 * k;
      OddSuffix(k - 1);
      RangeTwo(lo);
      FilterTwo(Odd, lo, Range(lo + 2, 14));
      ByTwosCons(lo, k);
    }
  }

  lemma {:induction false} DefWeeksIsRange()
    ensures DefWeeks == Range(1, 14)
  {
    RangeIs(1, 14);
    assert DefWeeks == seq(13, i => 1 + i);
  }

  /** The even weeks are 2, 4, ..., 12. */
  lemma {:induction false} EvenWeeks()
    ensures Filter(Even, DefWeeks) == ByTwos(2, 6)
  {
    DefWeeksIsRange();
    assert Range(1, 14) == [1] + Range(2, 14);
    FilterCons(Even, 1, Range(2, 14));
    assert [] + Filter(Even, Range(2, 14)) == Filter(Even, Range(2, 14));
    EvenSuffix(6);
  }

  /** The odd weeks are 1, 3, ..., 13. */
  lemma {:induction false} OddWeeks()
    ensures Filter(Odd, DefWeeks) == ByTwos(1, 7)
  {
    DefWeeksIsRange();
    OddSuffix(6);
  }

  function ShowAll(ns: seq<nat>): (ss: seq<string>)
    ensures |ss| == |ns|
    ensures forall i :: 0 <= i < |ns| ==> ss[i] == ShowNat(ns[i])
  {
    seq(|ns|, i requires 0 <= i < |ns| => ShowNat(ns[i]))
  }

  /** Writing a non-empty list of week numbers with commas and converting
      it back gives the same list, duplicates and order included; so
      `"2,4,9"` converts to `[2, 4, 9]`. */
  lemma {:induction false} OccurRoundTrip(weeks: seq<nat>)
    requires weeks != []
    ensures ConvertOccur(Join(ShowAll(weeks), ",")) == Success(weeks)
  {
    var pieces := ShowAll(weeks);
    var text := Join(pieces, ",");
    JoinStartsWith(pieces, ",");
    assert IsDigit(text[0]);
    assert !IsWeekKeyword(text);
    forall i | 0 <= i < |pieces| ensures ',' !in pieces[i] {
      assert IsDigits(pieces[i]);
    }
    SplitOnJoin(pieces, ',');
    forall i | 0 <= i < |pieces| ensures ParseInt(pieces[i]) == Success(weeks[i] as int) {
      ParseShowNat(weeks[i]);
    }
    var r := ConvertOccur(text);
    assert r.Success?;
    assert r.value == weeks;
  }

}
