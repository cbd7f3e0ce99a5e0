/**
 The few Python `str` operations the system relies on, with the semantics of
 CPython: whitespace is the `str.isspace()` set, `split()` without an argument
 splits on whitespace runs, `split(sep)` cuts at leftmost non-overlapping
 occurrences, `replace` is left to right, `splitlines()` knows every line
 boundary Python knows, and `int()` reads an optional sign and decimal digits.
 */
module PyStr {
  import opened Wrappers

  // ---------------------------------------------------------------------------
  // Character classes
  // ---------------------------------------------------------------------------

  /** Python's `str.isspace()`. */
  predicate IsSpace(c: char) {
    ('\t' <= c <= '\r') || ('\U{1c}' <= c <= ' ') || c == '\U{85}' || c == '\U{a0}'
    || c == '\U{1680}' || ('\U{2000}' <= c <= '\U{200a}') || c == '\U{2028}'
    || c == '\U{2029}' || c == '\U{202f}' || c == '\U{205f}' || c == '\U{3000}'
  }

  /** The characters at which `str.splitlines()` ends a line. */
  predicate IsLineBreak(c: char) {
    c == '\n' || c == '\r' || c == '\U{b}' || c == '\U{c}' || ('\U{1c}' <= c <= '\U{1e}')
    || c == '\U{85}' || c == '\U{2028}' || c == '\U{2029}'
  }

  predicate IsDigit(c: char) {
    '0' <= c <= '9'
  }

  predicate AllSpace(s: string) {
    forall i :: 0 <= i < |s| ==> IsSpace(s[i])
  }

  predicate NoSpace(s: string) {
    forall i :: 0 <= i < |s| ==> !IsSpace(s[i])
  }

  predicate NoLineBreak(s: string) {
    forall i :: 0 <= i < |s| ==> !IsLineBreak(s[i])
  }

  predicate AllDigits(s: string) {
    forall i :: 0 <= i < |s| ==> IsDigit(s[i])
  }

  /** What `str.strip()` leaves alone: no whitespace at either end. */
  predicate Stripped(s: string) {
    s == [] || (!IsSpace(s[0]) && !IsSpace(s[|s| - 1]))
  }

  // ---------------------------------------------------------------------------
  // strip
  // ---------------------------------------------------------------------------

  /** Number of whitespace characters that start `s`. */
  function SpaceRun(s: string): (n: nat)
    ensures n <= |s|
    ensures forall i :: 0 <= i < n ==> IsSpace(s[i])
    ensures n < |s| ==> !IsSpace(s[n])
    decreases |s|
  {
    if |s| > 0 && IsSpace(s[0]) then 1 + SpaceRun(s[1..]) else 0
  }

  /** Index at which the whitespace that ends `s` begins. */
  function SpaceTail(s: string): (k: nat)
    ensures k <= |s|
    ensures forall i :: k <= i < |s| ==> IsSpace(s[i])
    ensures k > 0 ==> !IsSpace(s[k - 1])
    decreases |s|
  {
    if |s| > 0 && IsSpace(s[|s| - 1]) then SpaceTail(s[..|s| - 1]) else |s|
  }

  /** `str.lstrip()`. */
  function LStrip(s: string): string {
    s[SpaceRun(s)..]
  }

  /** `str.rstrip()`. */
  function RStrip(s: string): string {
    s[..SpaceTail(s)]
  }

  /** `str.strip()`. */
  function Strip(s: string): (r: string)
    ensures Stripped(r)
  {
    var l := LStrip(s);
    var r := RStrip(l);
    assert r != [] ==> r[0] == l[0];
    r
  }

  lemma {:induction false} SpaceRunSpaces(ws: string, t: string)
    requires AllSpace(ws)
    ensures SpaceRun(ws + t) == |ws| + SpaceRun(t)
    decreases |ws|
  {
    if ws == [] {
      assert ws + t == t;
    } else {
      assert (ws + t)[1..] == ws[1..] + t;
      SpaceRunSpaces(ws[1..], t);
    }
  }

  lemma {:induction false} SpaceTailSpaces(t: string, ws: string)
    requires AllSpace(ws)
    ensures SpaceTail(t + ws) == SpaceTail(t)
    decreases |ws|
  {
    if ws == [] {
      assert t + ws == t;
    } else {
      var s := t + ws;
      assert s[..|s| - 1] == t + ws[..|ws| - 1];
      SpaceTailSpaces(t, ws[..|ws| - 1]);
    }
  }

  lemma LStripSpaces(ws: string, t: string)
    requires AllSpace(ws)
    ensures LStrip(ws + t) == LStrip(t)
  {
    SpaceRunSpaces(ws, t);
    assert (ws + t)[|ws| + SpaceRun(t)..] == t[SpaceRun(t)..];
  }

  /** Whitespace padding around a stripped text is exactly what `strip` removes. */
  lemma StripPadded(ws: string, e: string, ws': string)
    requires AllSpace(ws) && AllSpace(ws') && Stripped(e)
    ensures Strip(ws + e + ws') == e
  {
    assert ws + e + ws' == ws + (e + ws');
    LStripSpaces(ws, e + ws');
    if e == [] {
      assert e + ws' == ws';
      assert SpaceRun(ws') == |ws'|;
    } else {
      assert SpaceRun(e + ws') == 0;
      assert LStrip(e + ws') == e + ws';
      SpaceTailSpaces(e, ws');
      assert SpaceTail(e) == |e|;
      assert (e + ws')[..|e|] == e;
    }
  }

  lemma StripStripped(e: string)
    requires Stripped(e)
    ensures Strip(e) == e
  {
    StripPadded([], e, []);
    assert [] + e + [] == e;
  }

  // ---------------------------------------------------------------------------
  // Whitespace split and join
  // ---------------------------------------------------------------------------

  /** Length of the run of non-whitespace characters that starts `s`. */
  function WordEnd(s: string): (k: nat)
    ensures k <= |s|
    ensures forall i :: 0 <= i < k ==> !IsSpace(s[i])
    ensures k < |s| ==> IsSpace(s[k])
    decreases |s|
  {
    if |s| == 0 || IsSpace(s[0]) then 0 else 1 + WordEnd(s[1..])
  }

  /** `str.split()` with no argument: the maximal runs of non-whitespace. */
  function Split(s: string): seq<string>
    decreases |s|
  {
    if s == [] then []
    else if IsSpace(s[0]) then Split(s[1..])
    else
      var k := WordEnd(s);
      [s[..k]] + Split(s[k..])
  }

  /** Every item of `split()` is a non-empty word, and there are none exactly
      when the text is all whitespace. */
  lemma {:induction false} SplitWords(s: string)
    ensures forall i :: 0 <= i < |Split(s)| ==> Split(s)[i] != [] && NoSpace(Split(s)[i])
    ensures Split(s) == [] <==> AllSpace(s)
    decreases |s|
  {
    if s != [] {
      if IsSpace(s[0]) {
        SplitWords(s[1..]);
        assert AllSpace(s) <==> AllSpace(s[1..]);
      } else {
        SplitWords(s[WordEnd(s)..]);
      }
    }
  }

  /** `sep.join(xs)`. */
  function Join(sep: string, xs: seq<string>): string
    decreases |xs|
  {
    if |xs| == 0 then ""
    else if |xs| == 1 then xs[0]
    else xs[0] + sep + Join(sep, xs[1..])
  }

  /** `str.split(maxsplit=1)`: the first word and the remainder after the
      whitespace that follows it (empty when there is none). */
  function SplitFirst(s: string): (r: Option<(string, string)>)
    ensures r.None? <==> AllSpace(s)
    ensures r.Some? ==> r.value.0 != [] && NoSpace(r.value.0)
    ensures r.Some? ==> r.value.1 == [] || !IsSpace(r.value.1[0])
    decreases |s|
  {
    if s == [] then None
    else if IsSpace(s[0]) then
      var r := SplitFirst(s[1..]);
      assert AllSpace(s) <==> AllSpace(s[1..]);
      r
    else
      var k := WordEnd(s);
      var rest := s[k..];
      var r := rest[SpaceRun(rest)..];
      assert r != [] ==> r[0] == rest[SpaceRun(rest)];
      Some((s[..k], r))
  }

  lemma {:induction false} SplitSpacesFirst(ws: string, s: string)
    requires AllSpace(ws)
    ensures Split(ws + s) == Split(s)
    decreases |ws|
  {
    if ws == [] {
      assert ws + s == s;
    } else {
      assert (ws + s)[1..] == ws[1..] + s;
      SplitSpacesFirst(ws[1..], s);
    }
  }

  lemma {:induction false} WordEndOf(w: string, t: string)
    requires NoSpace(w) && (t == [] || IsSpace(t[0]))
    ensures WordEnd(w + t) == |w|
    decreases |w|
  {
    if w == [] {
      assert w + t == t;
    } else {
      assert (w + t)[1..] == w[1..] + t;
      WordEndOf(w[1..], t);
    }
  }

  /** A word followed by whitespace is split off as the first item. */
  lemma SplitWord(w: string, c: char, rest: string)
    requires w != [] && NoSpace(w) && IsSpace(c)
    ensures Split(w + [c] + rest) == [w] + Split(rest)
  {
    var s := w + [c] + rest;
    assert s == w + ([c] + rest);
    WordEndOf(w, [c] + rest);
    assert s[..|w|] == w;
    assert s[|w|..] == [c] + rest;
    SplitSpacesFirst([c], rest);
  }

  lemma SplitOneWord(w: string)
    requires w != [] && NoSpace(w)
    ensures Split(w) == [w]
  {
    WordEndOf(w, []);
    assert w + [] == w;
    assert w[..|w|] == w;
  }

  /** `split(maxsplit=1)` takes off the first item of `split()`, and the
      remainder splits into the rest. */
  lemma {:induction false} SplitFirstSplit(s: string)
    requires SplitFirst(s).Some?
    ensures Split(s) == [SplitFirst(s).value.0] + Split(SplitFirst(s).value.1)
    decreases |s|
  {
    if IsSpace(s[0]) {
      SplitFirstSplit(s[1..]);
    } else {
      var k := WordEnd(s);
      var rest := s[k..];
      var n := SpaceRun(rest);
      assert rest == rest[..n] + rest[n..];
      SplitSpacesFirst(rest[..n], rest[n..]);
    }
  }

  /** A single word splits off with an empty remainder. */
  lemma SplitFirstOneWord(w: string)
    requires w != [] && NoSpace(w)
    ensures SplitFirst(w) == Some((w, ""))
  {
    WordEndOf(w, []);
    assert w + [] == w;
    assert w[..|w|] == w;
  }

  /** Splitting words joined by single spaces gives the words back. */
  lemma {:induction false} SplitJoin(ws: seq<string>)
    requires forall i :: 0 <= i < |ws| ==> ws[i] != [] && NoSpace(ws[i])
    ensures Split(Join(" ", ws)) == ws
    decreases |ws|
  {
    if |ws| == 0 {
      assert AllSpace("");
    } else if |ws| == 1 {
      SplitOneWord(ws[0]);
    } else {
      var rest := Join(" ", ws[1..]);
      SplitJoin(ws[1..]);
      assert Join(" ", ws) == ws[0] + [' '] + rest;
      SplitWord(ws[0], ' ', rest);
      assert [ws[0]] + ws[1..] == ws;
    }
  }

  // ---------------------------------------------------------------------------
  // Substrings, split(sep), replace
  // ---------------------------------------------------------------------------

  /** `p` occurs in `s` starting at index `i`. */
  predicate MatchAt(s: string, p: string, i: int) {
    0 <= i && i + |p| <= |s| && s[i..i + |p|] == p
  }

  lemma MatchShift(s: string, p: string, i: int)
    requires |s| > 0 && 0 <= i
    ensures MatchAt(s[1..], p, i) <==> MatchAt(s, p, i + 1)
  {
    if 0 <= i && i + |p| <= |s| - 1 {
      assert s[1..][i..i + |p|] == s[i + 1..i + 1 + |p|];
    }
  }

  /** `str.find`: the leftmost occurrence of `p` in `s`. */
  function Find(s: string, p: string): (r: Option<nat>)
    ensures r.Some? ==> MatchAt(s, p, r.value) && forall i :: 0 <= i < r.value ==> !MatchAt(s, p, i)
    ensures r.None? ==> forall i :: !MatchAt(s, p, i)
    decreases |s|
  {
    if |s| < |p| then None
    else if s[..|p|] == p then Some(0)
    else
      var r := Find(s[1..], p);
      assert forall i :: 0 <= i ==> (MatchAt(s[1..], p, i) <==> MatchAt(s, p, i + 1)) by {
        forall i | 0 <= i ensures MatchAt(s[1..], p, i) <==> MatchAt(s, p, i + 1) {
          MatchShift(s, p, i);
        }
      }
      assert !MatchAt(s, p, 0);
      match r
      case None =>
        assert forall i :: !MatchAt(s, p, i) by {
          forall i ensures !MatchAt(s, p, i) {
            if i > 0 { assert !MatchAt(s[1..], p, i - 1); }
          }
        }
        None
      case Some(k) =>
        assert forall i :: 0 <= i < k + 1 ==> !MatchAt(s, p, i) by {
          forall i | 0 <= i < k + 1 ensures !MatchAt(s, p, i) {
            if i > 0 { assert !MatchAt(s[1..], p, i - 1); }
          }
        }
        Some(k + 1)
  }

  /** Python's `p in s`. */
  predicate Contains(s: string, p: string) {
    Find(s, p).Some?
  }

  predicate StartsWith(s: string, p: string) {
    |p| <= |s| && s[..|p|] == p
  }

  lemma StartsWithContains(s: string, p: string)
    requires StartsWith(s, p)
    ensures Contains(s, p)
  {
    assert MatchAt(s, p, 0);
  }

  lemma NoMatchInPrefix(s: string, p: string, k: nat)
    requires p != [] && k <= |s| && forall i :: 0 <= i < k ==> !MatchAt(s, p, i)
    ensures !Contains(s[..k], p)
  {
    if Find(s[..k], p).Some? {
      var i := Find(s[..k], p).value;
      assert s[..k][i..i + |p|] == s[i..i + |p|];
      assert MatchAt(s, p, i);
    }
  }

  /** `s.split(sep)`: the pieces between leftmost non-overlapping occurrences. */
  function SplitOn(s: string, sep: string): (r: seq<string>)
    requires sep != []
    ensures |r| >= 1
    ensures forall i :: 0 <= i < |r| ==> !Contains(r[i], sep)
    decreases |s|
  {
    match Find(s, sep)
    case None => [s]
    case Some(k) =>
      NoMatchInPrefix(s, sep, k);
      [s[..k]] + SplitOn(s[k + |sep|..], sep)
  }

  /** Joining the pieces of a split with the separator restores the text. */
  lemma {:induction false} JoinSplitOn(s: string, sep: string)
    requires sep != []
    ensures Join(sep, SplitOn(s, sep)) == s
    decreases |s|
  {
    match Find(s, sep)
    case None =>
    case Some(k) =>
      var rest := s[k + |sep|..];
      var pieces := SplitOn(rest, sep);
      JoinSplitOn(rest, sep);
      var all := [s[..k]] + pieces;
      assert SplitOn(s, sep) == all;
      assert all[1..] == pieces;
      assert Join(sep, all) == s[..k] + sep + Join(sep, pieces);
      assert s[k..k + |sep|] == sep;
      assert s == s[..k] + s[k..k + |sep|] + rest;
  }

  /** When the first occurrence of `sep` in `a + sep + b` is the one after `a`,
      the split yields `a` followed by the split of `b`. */
  lemma SplitOnAt(a: string, sep: string, b: string)
    requires sep != []
    requires forall i :: 0 <= i < |a| ==> !MatchAt(a + sep + b, sep, i)
    ensures SplitOn(a + sep + b, sep) == [a] + SplitOn(b, sep)
  {
    var s := a + sep + b;
    assert MatchAt(s, sep, |a|) by { assert s[|a|..|a| + |sep|] == sep; }
    var k := Find(s, sep).value;
    assert k == |a|;
    assert s[..k] == a;
    assert s[k + |sep|..] == b;
  }

  /** A text without `sep` is its own only piece. */
  lemma SplitOnNone(s: string, sep: string)
    requires sep != [] && !Contains(s, sep)
    ensures SplitOn(s, sep) == [s]
  {
  }

  /** `s.replace(p, q)`: every leftmost non-overlapping occurrence replaced. */
  function ReplaceAll(s: string, p: string, q: string): string
    requires p != []
    decreases |s|
  {
    if |s| < |p| then s
    else if s[..|p|] == p then q + ReplaceAll(s[|p|..], p, q)
    else [s[0]] + ReplaceAll(s[1..], p, q)
  }

  // ---------------------------------------------------------------------------
  // lower, splitlines
  // ---------------------------------------------------------------------------

  function LowerChar(c: char): char {
    if 'A' <= c <= 'Z' then (c as int + 32) as char else c
  }

  /** `str.lower()` on the ASCII letters. */
  function Lower(s: string): (r: string)
    ensures |r| == |s| && forall i :: 0 <= i < |s| ==> r[i] == LowerChar(s[i])
  {
    seq(|s|, i requires 0 <= i < |s| => LowerChar(s[i]))
  }

  /** Index of the first line boundary in `s`, or `|s|`. */
  function LineEnd(s: string): (k: nat)
    ensures k <= |s| && NoLineBreak(s[..k]) && (k < |s| ==> IsLineBreak(s[k]))
    decreases |s|
  {
    if |s| == 0 || IsLineBreak(s[0]) then 0
    else
      var k := LineEnd(s[1..]);
      assert s[..k + 1] == [s[0]] + s[1..][..k];
      1 + k
  }

  /** `str.splitlines()`: lines without their terminators; `\r\n` is one
      terminator and a final terminator opens no further line. */
  function SplitLines(s: string): (r: seq<string>)
    ensures forall i :: 0 <= i < |r| ==> NoLineBreak(r[i])
    decreases |s|
  {
    if s == [] then []
    else
      var k := LineEnd(s);
      if k == |s| then
        assert s[..k] == s;
        [s]
      else
        var skip := if s[k] == '\r' && k + 1 < |s| && s[k + 1] == '\n' then 2 else 1;
        [s[..k]] + SplitLines(s[k + skip..])
  }

  lemma {:induction false} LineEndOf(x: string, t: string)
    requires NoLineBreak(x) && t != [] && IsLineBreak(t[0])
    ensures LineEnd(x + t) == |x|
    decreases |x|
  {
    if x == [] {
      assert x + t == t;
    } else {
      assert (x + t)[1..] == x[1..] + t;
      LineEndOf(x[1..], t);
    }
  }

  /** A line without breaks followed by "\n" is split off as the first line. */
  lemma SplitLinesCons(x: string, rest: string)
    requires NoLineBreak(x)
    ensures SplitLines(x + "\n" + rest) == [x] + SplitLines(rest)
  {
    var s := x + "\n" + rest;
    assert s == x + ("\n" + rest);
    LineEndOf(x, "\n" + rest);
    assert s[|x|] == '\n';
    assert s[..|x|] == x;
    assert s[|x| + 1..] == rest;
  }

  lemma SplitLinesOne(x: string)
    requires x != [] && NoLineBreak(x)
    ensures SplitLines(x) == [x]
  {
    assert x[..LineEnd(x)] == x;
  }

  /** Joining non-empty break-free lines with "\n" and splitting the result
      into lines gives the lines back. */
  lemma {:induction false} SplitLinesJoin(ls: seq<string>)
    requires forall i :: 0 <= i < |ls| ==> ls[i] != [] && NoLineBreak(ls[i])
    ensures SplitLines(Join("\n", ls)) == ls
    decreases |ls|
  {
    if |ls| == 1 {
      SplitLinesOne(ls[0]);
    } else if |ls| > 1 {
      SplitLinesJoin(ls[1..]);
      SplitLinesCons(ls[0], Join("\n", ls[1..]));
      assert [ls[0]] + ls[1..] == ls;
    }
  }

  // ---------------------------------------------------------------------------
  // Decimal integers
  // ---------------------------------------------------------------------------

  function DigitValue(c: char): nat
    requires IsDigit(c)
  {
    c as int - '0' as int
  }

  function DigitsValue(s: string): nat
    requires AllDigits(s)
    decreases |s|
  {
    if s == [] then 0 else 10 * DigitsValue(s[..|s| - 1]) + DigitValue(s[|s| - 1])
  }

  /** `int(s)` for a string without surrounding whitespace: an optional sign
      and at least one decimal digit; anything else is a `ValueError`. */
  function ParseInt(s: string): (r: Option<int>)
    ensures r.Some? ==> s != [] && NoSpace(s)
  {
    if |s| > 1 && (s[0] == '-' || s[0] == '+') && AllDigits(s[1..]) then
      var v: int := DigitsValue(s[1..]);
      Some(if s[0] == '-' then -v else v)
    else if |s| > 0 && AllDigits(s) then
      Some(DigitsValue(s))
    else None
  }

  /** `str(n)` for a natural number. */
  function ShowNat(n: nat): (r: string)
    ensures r != [] && AllDigits(r)
    decreases n
  {
    if n < 10 then [('0' as int + n) as char]
    else ShowNat(n / 10) + [('0' as int + n % 10) as char]
  }

  lemma {:induction false} ShowNatValue(n: nat)
    ensures DigitsValue(ShowNat(n)) == n
    decreases n
  {
    if n >= 10 {
      var r := ShowNat(n);
      ShowNatValue(n / 10);
      assert r[..|r| - 1] == ShowNat(n / 10);
    }
  }

  /** `int(str(n)) == n`. */
  lemma ParseShowNat(n: nat)
    ensures ParseInt(ShowNat(n)) == Some(n)
  {
    ShowNatValue(n);
  }

  lemma AllDigitsNoSpace(s: string)
    requires AllDigits(s)
    ensures NoSpace(s) && Stripped(s)
  {
  }
}
