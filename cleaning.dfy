/** `clean(text)` (cors/spiders/cors_spider.py:11-15): whitespace runs become
    single spaces and every non-ASCII code point becomes a decimal character
    reference, as `encode('ascii', 'xmlcharrefreplace')` writes it. */
module Cleaning {
  import opened Strings
  import opened Numerals

  predicate IsAscii(s: string)
  {
    forall i :: 0 <= i < |s| ==> (s[i] as int) < 128
  }

  /** Single spaces between tokens: the only whitespace is ' ', never at
      either end and never twice in a row. */
  predicate SingleSpaced(s: string)
  {
    (forall i :: 0 <= i < |s| ==> IsSpace(s[i]) ==> s[i] == ' ') &&
    (s != [] ==> s[0] != ' ' && s[|s| - 1] != ' ') &&
    (forall i :: 0 <= i < |s| - 1 ==> s[i] == ' ' ==> s[i + 1] != ' ')
  }

  /** The `xmlcharrefreplace` rendering of one code point. */
  function EscapeChar(c: char): (r: string)
    ensures r != [] && IsAscii(r)
    ensures (c as int) < 128 ==> r == [c]
    ensures !IsSpace(c) ==> NoSpace(r)
  {
    if (c as int) < 128 then [c]
    else
      var digits := ShowNat(c as int);
      var r := "&#" + digits + ";";
      assert forall i :: 0 <= i < |r| ==> r[i] == '&' || r[i] == '#' || r[i] == ';' || IsDigit(r[i]);
      SpaceRanges('&');
      SpaceRanges('#');
      SpaceRanges(';');
      forall i | 0 <= i < |digits| ensures !IsSpace(digits[i]) {
        DigitIsNotSpace(digits[i]);
      }
      r
  }

  /** `s.encode('ascii', 'xmlcharrefreplace')`, read back as characters. */
  function Escape(s: string): (r: string)
    ensures IsAscii(r)
    ensures NoSpace(s) ==> NoSpace(r)
  {
    if s == [] then [] else EscapeChar(s[0]) + Escape(s[1..])
  }

  function EscapeAll(ws: seq<string>): (es: seq<string>)
    ensures |es| == |ws|
    ensures forall i :: 0 <= i < |ws| ==> es[i] == Escape(ws[i])
  {
    seq(|ws|, i requires 0 <= i < |ws| => Escape(ws[i]))
  }

  /** `[w.strip() for w in ws]`. */
  function StripAll(ws: seq<string>): (ss: seq<string>)
    ensures |ss| == |ws|
    ensures forall i :: 0 <= i < |ws| ==> ss[i] == Strip(ws[i])
  {
    seq(|ws|, i requires 0 <= i < |ws| => Strip(ws[i]))
  }

  /** `clean(text)`: the result is ASCII, single-spaced, and its tokens are
      exactly the whitespace-separated words of `text`, in order, each
      with its non-ASCII characters escaped. */
  function Clean(text: string): (r: string)
    ensures IsAscii(r)
    ensures SingleSpaced(r)
    ensures Split(r) == EscapeAll(Split(text))
  {
    var ws := Split(text);
    var r := Escape(Join(StripAll(ws), " "));
    WordsTrimmed(ws);
    EscapeJoin(ws);
    EscapedWords(ws);
    JoinSingleSpaced(EscapeAll(ws));
    SplitJoin(EscapeAll(ws));
    r
  }

  // ---------------------------------------------------------------------
  // Properties
  // ---------------------------------------------------------------------

  /** A non-ASCII code point is written as `&#`, the canonical decimal
      numeral of the code point, and `;`, so the character can be read
      back from its escape; no other canonical numeral has that value. */
  lemma {:induction false} EscapeCharReads(c: char)
    requires (c as int) >= 128
    ensures var r := EscapeChar(c);
            |r| >= 4 && r[..2] == "&#" && r[|r| - 1] == ';' &&
            IsCanonical(r[2..|r| - 1]) && DigitsValue(r[2..|r| - 1]) == c as int
    ensures var r := EscapeChar(c);
            forall n :: IsCanonical(n) && DigitsValue(n) == c as int ==> n == r[2..|r| - 1]
  {
    var digits := ShowNat(c as int);
    var r := EscapeChar(c);
    assert r == "&#" + digits + ";";
    assert r[2..|r| - 1] == digits;
    ShowNatValue(c as int);
    forall n | IsCanonical(n) && DigitsValue(n) == c as int ensures n == digits {
      ValueShowNat(n);
    }
  }

  /** Cleaning a cleaned text changes nothing. */
  lemma {:induction false} CleanIdempotent(text: string)
    ensures Clean(Clean(text)) == Clean(text)
  {
    var c := Clean(text);
    var es := Split(c);
    WordsTrimmed(es);
    EscapeJoin(es);
    assert Join(es, " ") == c by {
      var ws := Split(text);
      EscapeJoin(ws);
      WordsTrimmed(ws);
    }
    EscapeAscii(c);
  }

  /** On ASCII text `clean` only normalises whitespace. */
  lemma {:induction false} CleanAscii(text: string)
    requires IsAscii(text)
    ensures Clean(text) == Join(Split(text), " ")
  {
    var ws := Split(text);
    WordsTrimmed(ws);
    SplitAscii(text);
    forall i | 0 <= i < |ws| ensures Escape(ws[i]) == ws[i] {
      EscapeAscii(ws[i]);
    }
    assert EscapeAll(ws) == ws;
    EscapeJoin(ws);
  }

  lemma {:induction false} WordsTrimmed(ws: seq<string>)
    requires AllWords(ws)
    ensures StripAll(ws) == ws
  {
    forall i | 0 <= i < |ws| ensures Strip(ws[i]) == ws[i] {
      StripTrimmed(ws[i]);
    }
  }

  lemma {:induction false} EscapedWords(ws: seq<string>)
    requires AllWords(ws)
    ensures AllWords(EscapeAll(ws))
  {
  }

  /** Escaping works one code point at a time, from the front. */
  lemma {:induction false} EscapeCons(c: char, t: string)
    ensures Escape([c] + t) == EscapeChar(c) + Escape(t)
  {
    assert ([c] + t)[0] == c && ([c] + t)[1..] == t;
  }

  lemma {:induction false} EscapeAppend(a: string, b: string)
    ensures Escape(a + b) == Escape(a) + Escape(b)
  {
    if a == [] {
      assert a + b == b;
    } else {
      var c, t := a[0], a[1..];
      assert a == [c] + t && a + b == [c] + (t + b);
      EscapeCons(c, t + b);
      EscapeCons(c, t);
      EscapeAppend(t, b);
      AppendAssoc(EscapeChar(c), Escape(t), Escape(b));
    }
  }

  lemma {:induction false} EscapeAscii(s: string)
    requires IsAscii(s)
    ensures Escape(s) == s
  {
    if s != [] {
      EscapeAscii(s[1..]);
      assert s == [s[0]] + s[1..];
    }
  }

  /** Escaping a joined text escapes each word: the spaces are ASCII. */
  lemma {:induction false} EscapeJoin(ws: seq<string>)
    ensures Escape(Join(ws, " ")) == Join(EscapeAll(ws), " ")
  {
    if |ws| > 1 {
      var rest := Join(ws[1..], " ");
      assert Join(ws, " ") == ws[0] + " " + rest;
      EscapeAppend(ws[0] + " ", rest);
      EscapeAppend(ws[0], " ");
      EscapeJoin(ws[1..]);
      assert EscapeAll(ws)[1..] == EscapeAll(ws[1..]);
    }
  }

  lemma {:induction false} JoinEndsWith(ws: seq<string>)
    requires ws != [] && ws[|ws| - 1] != []
    ensures var j := Join(ws, " "); j != [] && j[|j| - 1] == ws[|ws| - 1][|ws[|ws| - 1]| - 1]
  {
    if |ws| > 1 {
      JoinEndsWith(ws[1..]);
    }
  }

  /** Tokens joined with single spaces are single-spaced. */
  lemma {:induction false} JoinSingleSpaced(ws: seq<string>)
    requires AllWords(ws)
    ensures SingleSpaced(Join(ws, " "))
  {
    if |ws| == 1 {
      assert ws[0][0] != ' ' && ws[0][|ws[0]| - 1] != ' ' by {
        SpaceRanges(' ');
      }
    } else if |ws| > 1 {
      SpaceRanges(' ');
      var w := ws[0];
      var rest := Join(ws[1..], " ");
      JoinSingleSpaced(ws[1..]);
      JoinStartsWith(ws[1..], " ");
      JoinEndsWith(ws);
      var j := Join(ws, " ");
      assert j == w + " " + rest;
      forall i | 0 <= i < |j| ensures IsSpace(j[i]) ==> j[i] == ' ' {
        if i > |w| { assert j[i] == rest[i - |w| - 1]; }
      }
      forall i | 0 <= i < |j| - 1 ensures j[i] == ' ' ==> j[i + 1] != ' ' {
        if i > |w| { assert j[i] == rest[i - |w| - 1] && j[i + 1] == rest[i - |w|]; }
      }
    }
  }

  lemma {:induction false} SplitAscii(text: string)
    requires IsAscii(text)
    ensures forall i :: 0 <= i < |Split(text)| ==> IsAscii(Split(text)[i])
    decreases |text|
  {
    if text == [] {
    } else if IsSpace(text[0]) {
      SplitAscii(text[1..]);
    } else {
      var n := WordLen(text);
      SplitAscii(text[n..]);
    }
  }
}
