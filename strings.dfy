/** The Python string built-ins the spider relies on: `str.split()`,
    `str.strip()`, `sep.join(...)` and `str.split(c)`, on strings of code
    points. */
module Strings {

  /** The characters Python 2.7's `unicode.isspace()` accepts. */
  const SpaceChars: string :=
    " \t\n\U{b}\U{c}\r\U{1c}\U{1d}\U{1e}\U{1f}\U{85}\U{a0}\U{1680}\U{180e}" +
    "\U{2000}\U{2001}\U{2002}\U{2003}\U{2004}\U{2005}\U{2006}\U{2007}\U{2008}\U{2009}\U{200a}" +
    "\U{2028}\U{2029}\U{202f}\U{205f}\U{3000}"

  predicate IsSpace(c: char)
  {
    Occurs(c, SpaceChars)
  }

  /** `c` is one of the characters of `s`. */
  predicate Occurs(c: char, s: string)
    decreases |s|
  {
    s != [] && (s[0] == c || Occurs(c, s[1..]))
  }

  lemma {:induction false} OccursIsIn(c: char, s: string)
    ensures Occurs(c, s) <==> c in s
    decreases |s|
  {
    if s != [] {
      OccursIsIn(c, s[1..]);
      assert s == [s[0]] + s[1..];
    }
  }

  /** Python's whitespace, range by range. */
  lemma {:induction false} SpaceRanges(c: char)
    ensures IsSpace(c) <==>
      c == ' ' || ('\t' <= c <= '\r') || ('\U{1c}' <= c <= '\U{1f}') ||
      c == '\U{85}' || c == '\U{a0}' || c == '\U{1680}' || c == '\U{180e}' ||
      ('\U{2000}' <= c <= '\U{200a}') || c == '\U{2028}' || c == '\U{2029}' ||
      c == '\U{202f}' || c == '\U{205f}' || c == '\U{3000}'
  {
    OccursIsIn(c, SpaceChars);
  }

  predicate NoSpace(s: string)
  {
    forall i :: 0 <= i < |s| ==> !IsSpace(s[i])
  }

  predicate AllSpace(s: string)
  {
    forall i :: 0 <= i < |s| ==> IsSpace(s[i])
  }

  /** A token that `str.split()` can produce: non-empty, no whitespace. */
  predicate IsWord(w: string)
  {
    w != [] && NoSpace(w)
  }

  predicate AllWords(ws: seq<string>)
  {
    forall i :: 0 <= i < |ws| ==> IsWord(ws[i])
  }

  /** The length of the run of non-whitespace characters that starts `s`. */
  function WordLen(s: string): (n: nat)
    ensures n <= |s|
    ensures forall i :: 0 <= i < n ==> !IsSpace(s[i])
    ensures n == |s| || IsSpace(s[n])
  {
    if s == [] || IsSpace(s[0]) then 0 else 1 + WordLen(s[1..])
  }

  /** Python's `s.split()`: the maximal runs of non-whitespace characters,
      in order. */
  function Split(s: string): (ws: seq<string>)
    ensures AllWords(ws)
    decreases |s|
  {
    if s == [] then []
    else if IsSpace(s[0]) then Split(s[1..])
    else
      var n := WordLen(s);
      [s[..n]] + Split(s[n..])
  }

  /** The number of whitespace characters that start `s`. */
  function LeadingSpace(s: string): (n: nat)
    ensures n <= |s|
    ensures forall i :: 0 <= i < n ==> IsSpace(s[i])
    ensures n == |s| || !IsSpace(s[n])
  {
    if s == [] || !IsSpace(s[0]) then 0 else 1 + LeadingSpace(s[1..])
  }

  /** The index where the whitespace that ends `s` begins. */
  function TrailingStart(s: string): (n: nat)
    ensures n <= |s|
    ensures forall i :: n <= i < |s| ==> IsSpace(s[i])
    ensures n == 0 || !IsSpace(s[n - 1])
  {
    if s == [] || !IsSpace(s[|s| - 1]) then |s| else TrailingStart(s[..|s| - 1])
  }

  /** Python's `s.strip()`. */
  function Strip(s: string): (r: string)
    ensures r == [] || (!IsSpace(r[0]) && !IsSpace(r[|r| - 1]))
    ensures exists i, j :: 0 <= i <= j <= |s| && r == s[i..j] &&
                           AllSpace(s[..i]) && AllSpace(s[j..])
  {
    var i, j := LeadingSpace(s), TrailingStart(s);
    if j <= i then
      assert i == |s|;
      assert s[..i] == s && s[i..i] == [] && s[i..] == [];
      []
    else
      s[i..j]
  }

  /** Python's `sep.join(ws)`. */
  function Join(ws: seq<string>, sep: string): string
  {
    if ws == [] then []
    else if |ws| == 1 then ws[0]
    else ws[0] + sep + Join(ws[1..], sep)
  }

  /** Concatenation of all strings of `ws`. */
  function Concat(ws: seq<string>): string
  {
    if ws == [] then [] else ws[0] + Concat(ws[1..])
  }

  /** The non-whitespace characters of `s`, in order. */
  function RemoveSpace(s: string): (r: string)
    ensures NoSpace(r)
  {
    if s == [] then []
    else (if IsSpace(s[0]) then [] else [s[0]]) + RemoveSpace(s[1..])
  }

  /** The index of the first `c` in `s`. */
  function IndexOf(s: string, c: char): (i: nat)
    requires c in s
    ensures i < |s| && s[i] == c && c !in s[..i]
  {
    if s[0] == c then 0
    else
      var j := IndexOf(s[1..], c);
      assert s[..j + 1] == [s[0]] + s[1..][..j];
      1 + j
  }

  /** Python's `s.split(c)` for a one-character separator: every
      occurrence of `c` separates two (possibly empty) pieces. */
  function SplitOn(s: string, c: char): (ps: seq<string>)
    ensures |ps| >= 1
    ensures forall i :: 0 <= i < |ps| ==> c !in ps[i]
    ensures Join(ps, [c]) == s
    decreases |s|
  {
    if c !in s then [s]
    else
      var i := IndexOf(s, c);
      var rest := SplitOn(s[i + 1..], c);
      assert s == s[..i] + [c] + s[i + 1..];
      [s[..i]] + rest
  }

  // ---------------------------------------------------------------------
  // Properties of the built-ins
  // ---------------------------------------------------------------------

  /** Splitting loses only whitespace: the words, put back together, are
      exactly the non-whitespace characters of the input, in order. */
  lemma {:induction false} SplitKeepsCharacters(s: string)
    ensures Concat(Split(s)) == RemoveSpace(s)
    decreases |s|
  {
    if s == [] {
    } else if IsSpace(s[0]) {
      SplitKeepsCharacters(s[1..]);
    } else {
      var n := WordLen(s);
      assert s == s[..n] + s[n..];
      RemoveSpaceAppend(s[..n], s[n..]);
      RemoveSpaceOfWord(s[..n]);
      SplitKeepsCharacters(s[n..]);
    }
  }

  lemma {:induction false} RemoveSpaceAppend(a: string, b: string)
    ensures RemoveSpace(a + b) == RemoveSpace(a) + RemoveSpace(b)
  {
    if a == [] {
      assert a + b == b;
    } else {
      assert (a + b)[1..] == a[1..] + b;
      RemoveSpaceAppend(a[1..], b);
      var h := if IsSpace(a[0]) then [] else [a[0]];
      assert RemoveSpace(a + b) == h + (RemoveSpace(a[1..]) + RemoveSpace(b));
      assert h + (RemoveSpace(a[1..]) + RemoveSpace(b)) == (h + RemoveSpace(a[1..])) + RemoveSpace(b);
    }
  }

  lemma {:induction false} RemoveSpaceOfWord(a: string)
    requires NoSpace(a)
    ensures RemoveSpace(a) == a
  {
    if a != [] {
      RemoveSpaceOfWord(a[1..]);
    }
  }

  /** A single token splits to itself. */
  lemma {:induction false} SplitWord(w: string)
    requires IsWord(w)
    ensures Split(w) == [w]
  {
    assert WordLen(w) == |w|;
    assert w[|w|..] == [];
    assert w[..|w|] == w;
  }

  /** A string of whitespace splits to nothing. */
  lemma {:induction false} SplitSpaces(a: string)
    requires AllSpace(a)
    ensures Split(a) == []
  {
    if a != [] {
      SplitSpaces(a[1..]);
    }
  }

  /** The seam between `a` and `b` is whitespace. */
  predicate SpaceSeam(a: string, b: string)
  {
    (a != [] && IsSpace(a[|a| - 1])) || (b != [] && IsSpace(b[0]))
  }

  /** Splitting distributes over a concatenation whose seam is whitespace. */
  lemma {:induction false} SplitAppend(a: string, b: string)
    requires SpaceSeam(a, b)
    ensures Split(a + b) == Split(a) + Split(b)
    decreases |a|
  {
    if a == [] {
      assert a + b == b;
    } else {
      SplitAppendStep(a, b);
      var a' := a[SplitStepLen(a)..];
      if a' == [] {
        assert a' + b == b && Split(a') == [];
        assert SplitHead(a) + Split(a') == SplitHead(a);
      } else {
        SeamTail(a, SplitStepLen(a), b);
        SplitAppend(a', b);
      }
      AppendAssoc(SplitHead(a), Split(a'), Split(b));
    }
  }

  /** A whitespace seam stays one after a non-empty suffix of `a`. */
  lemma {:induction false} SeamTail(a: string, n: nat, b: string)
    requires n < |a| && SpaceSeam(a, b)
    ensures SpaceSeam(a[n..], b)
  {
    assert a[n..][|a| - n - 1] == a[|a| - 1];
  }

  lemma {:induction false} AppendAssoc<T>(x: seq<T>, y: seq<T>, z: seq<T>)
    ensures x + y + z == x + (y + z)
  {
  }

  /** How many characters the first step of `Split` consumes, and the words
      it emits. */
  function SplitStepLen(a: string): nat
    requires a != []
  {
    if IsSpace(a[0]) then 1 else WordLen(a)
  }

  function SplitHead(a: string): seq<string>
    requires a != []
  {
    if IsSpace(a[0]) then [] else [a[..WordLen(a)]]
  }

  /** One step of `Split` on `a + b`, taken inside `a`. */
  lemma {:induction false} SplitAppendStep(a: string, b: string)
    requires a != [] && SpaceSeam(a, b)
    ensures 1 <= SplitStepLen(a) <= |a|
    ensures Split(a + b) == SplitHead(a) + Split(a[SplitStepLen(a)..] + b)
    ensures Split(a) == SplitHead(a) + Split(a[SplitStepLen(a)..])
  {
    assert (a + b)[0] == a[0];
    if IsSpace(a[0]) {
      assert (a + b)[1..] == a[1..] + b;
    } else {
      var n := WordLen(a);
      WordLenAppend(a, b);
      assert (a + b)[..n] == a[..n];
      assert (a + b)[n..] == a[n..] + b;
    }
  }

  lemma {:induction false} WordLenAppend(t: string, b: string)
    requires WordLen(t) < |t| || b == [] || IsSpace(b[0])
    ensures WordLen(t + b) == WordLen(t)
    decreases |t|
  {
    if t == [] {
      assert t + b == b;
    } else if !IsSpace(t[0]) {
      assert (t + b)[1..] == t[1..] + b;
      WordLenAppend(t[1..], b);
    }
  }

  /** Joining tokens with single spaces and splitting again gives the tokens
      back. */
  lemma {:induction false} SplitJoin(ws: seq<string>)
    requires AllWords(ws)
    ensures Split(Join(ws, " ")) == ws
  {
    if ws == [] {
    } else if |ws| == 1 {
      SplitWord(ws[0]);
    } else {
      var rest := Join(ws[1..], " ");
      SplitJoin(ws[1..]);
      assert Join(ws, " ") == ws[0] + (" " + rest);
      SplitAppend(ws[0], " " + rest);
      assert (" " + rest)[1..] == rest;
      SplitWord(ws[0]);
      assert ws == [ws[0]] + ws[1..];
    }
  }

  /** A joined string starts with the first piece's first character. */
  lemma {:induction false} JoinStartsWith(ws: seq<string>, sep: string)
    requires ws != [] && ws[0] != []
    ensures Join(ws, sep) != [] && Join(ws, sep)[0] == ws[0][0]
  {
  }

  /** Stripping a string that has no surrounding whitespace changes nothing;
      in particular `Strip` is idempotent. */
  lemma {:induction false} StripTrimmed(s: string)
    requires s == [] || (!IsSpace(s[0]) && !IsSpace(s[|s| - 1]))
    ensures Strip(s) == s
  {
    assert s[0..|s|] == s;
  }

  /** Stripping keeps the words. */
  lemma {:induction false} StripWords(s: string)
    ensures Split(Strip(s)) == Split(s)
  {
    var i, j :| 0 <= i <= j <= |s| && Strip(s) == s[i..j] && AllSpace(s[..i]) && AllSpace(s[j..]);
    var m, q := s[i..j], s[j..];
    assert s == s[..i] + (m + q);
    if i > 0 {
      SplitSpaces(s[..i]);
      SplitAppend(s[..i], m + q);
    }
    if q == [] {
      assert m + q == m;
    } else {
      SplitSpaces(q);
      SplitAppend(m, q);
      assert Split(m) + [] == Split(m);
    }
  }

  lemma {:induction false} StripIdempotent(s: string)
    ensures Strip(Strip(s)) == Strip(s)
  {
    StripTrimmed(Strip(s));
  }

  lemma {:induction false} IndexOfPrefix(p: string, c: char, rest: string)
    requires c !in p
    ensures c in p + [c] + rest && IndexOf(p + [c] + rest, c) == |p|
  {
    var s := p + [c] + rest;
    assert s[|p|] == c;
    if p != [] {
      assert s[1..] == p[1..] + [c] + rest;
      IndexOfPrefix(p[1..], c, rest);
    }
  }

  /** Splitting on `c` and joining with `c` are inverse to each other. */
  lemma {:induction false} SplitOnJoin(ps: seq<string>, c: char)
    requires |ps| >= 1
    requires forall i :: 0 <= i < |ps| ==> c !in ps[i]
    ensures SplitOn(Join(ps, [c]), c) == ps
  {
    if |ps| > 1 {
      var rest := Join(ps[1..], [c]);
      assert Join(ps, [c]) == ps[0] + [c] + rest;
      SplitOnCons(ps[0], c, rest);
      SplitOnJoin(ps[1..], c);
      assert ps == [ps[0]] + ps[1..];
    }
  }

  /** Splitting `p + [c] + rest`, where `p` has no `c`, gives `p` first. */
  lemma {:induction false} SplitOnCons(p: string, c: char, rest: string)
    requires c !in p
    ensures SplitOn(p + [c] + rest, c) == [p] + SplitOn(rest, c)
  {
    var s := p + [c] + rest;
    IndexOfPrefix(p, c, rest);
    assert s[..|p|] == p;
    assert s[|p| + 1..] == rest;
  }
}
