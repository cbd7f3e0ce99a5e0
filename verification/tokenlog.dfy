/**
 `append_token_usage_log` of `_LLM/LLM_manager.py`: the token log is read as
 lines (each with its line break, as `readlines` gives them), the running
 summary lines and repeated lines are dropped, the counts of every usage
 line are summed, and the file is rewritten with the new usage line and the
 new running totals. The clock reading is a parameter.
 */
module TokenLog {
  import opened Wrappers
  import opened PyStr

  /** Token counts of one API response. */
  datatype Usage = Usage(prompt: nat, completion: nat, total: nat)

  /** Counts as read back from the log (Python `int`, so possibly negative). */
  datatype Counts = Counts(prompt: int, completion: int, total: int)

  const NoCounts := Counts(0, 0, 0)

  function Add(a: Counts, b: Counts): Counts {
    Counts(a.prompt + b.prompt, a.completion + b.completion, a.total + b.total)
  }

  function OfUsage(u: Usage): Counts {
    Counts(u.prompt, u.completion, u.total)
  }

  const PromptKey := "Prompt:"
  const CompletionKey := "Completion:"
  const TotalKey := "Total:"
  const TotalPrefix := "累積"
  const CostPrefix := "推定使用金額"

  // ---------------------------------------------------------------------------
  // Reading the log
  // ---------------------------------------------------------------------------

  /** A running-summary line, rewritten on every call. */
  predicate Summary(line: string) {
    StartsWith(line, TotalPrefix) || StartsWith(line, CostPrefix)
  }

  /** The lines kept from the log: summaries dropped, and a line equal to the
      last line kept dropped too. `prev` is the last line kept so far. */
  function Filtered(lines: seq<string>, prev: Option<string>): seq<string>
    decreases |lines|
  {
    if lines == [] then []
    else if Summary(lines[0]) || prev == Some(lines[0]) then Filtered(lines[1..], prev)
    else [lines[0]] + Filtered(lines[1..], Some(lines[0]))
  }

  /** The counts of a usage line, or `None` when the line lacks one of the
      three labels or one of the three numbers does not parse (the exception
      the source swallows). */
  function ParseCounts(line: string): Option<Counts> {
    if Contains(line, PromptKey) && Contains(line, CompletionKey) && Contains(line, TotalKey) then
      SplitOnContains(line, PromptKey);
      SplitOnContains(line, CompletionKey);
      SplitOnContains(line, TotalKey);
      var p := ParseInt(Strip(SplitOn(SplitOn(line, PromptKey)[1], ",")[0]));
      var c := ParseInt(Strip(SplitOn(SplitOn(line, CompletionKey)[1], ",")[0]));
      var words := Split(SplitOn(line, TotalKey)[1]);
      if words == [] then None
      else
        var t := ParseInt(Strip(words[0]));
        if p.Some? && c.Some? && t.Some? then Some(Counts(p.value, c.value, t.value)) else None
    else None
  }

  function CountOf(line: string): Counts {
    match ParseCounts(line)
    case None => NoCounts
    case Some(c) => c
  }

  /** The counts summed over lines, last line added last. */
  function Sum(lines: seq<string>): Counts
    decreases |lines|
  {
    if lines == [] then NoCounts
    else Add(Sum(lines[..|lines| - 1]), CountOf(lines[|lines| - 1]))
  }

  /** The reading loop of `append_token_usage_log`: the kept lines and the
      counts summed over them. */
  method ReadLog(lines: seq<string>) returns (kept: seq<string>, sums: Counts)
    ensures kept == Filtered(lines, None)
    ensures sums == Sum(kept)
  {
    kept := [];
    sums := NoCounts;
    var prev: Option<string> := None;
    var i := 0;
    while i < |lines|
      invariant 0 <= i <= |lines|
      invariant kept + Filtered(lines[i..], prev) == Filtered(lines, None)
      invariant sums == Sum(kept)
    {
      var line := lines[i];
      FilteredStep(lines, i, prev);
      if Summary(line) {
        // a running-summary line
      } else if prev == Some(line) {
        // a repeat of the line before
      } else {
        prev := Some(line);
        SumSnoc(kept, line);
        kept := kept + [line];
        sums := Add(sums, CountOf(line));
      }
      i := i + 1;
    }
  }

  lemma FilteredStep(lines: seq<string>, i: nat, prev: Option<string>)
    requires i < |lines|
    ensures Filtered(lines[i..], prev)
            == if Summary(lines[i]) || prev == Some(lines[i]) then Filtered(lines[i + 1..], prev)
               else [lines[i]] + Filtered(lines[i + 1..], Some(lines[i]))
  {
    assert lines[i..][1..] == lines[i + 1..];
  }

  lemma SumSnoc(kept: seq<string>, line: string)
    ensures Sum(kept + [line]) == Add(Sum(kept), CountOf(line))
  {
    assert (kept + [line])[..|kept|] == kept;
  }

  // ---------------------------------------------------------------------------
  // Writing the log
  // ---------------------------------------------------------------------------

  /** `str(n)` for a Python integer. */
  function ShowInt(n: int): string {
    if n < 0 then "-" + ShowNat(-n) else ShowNat(n)
  }

  /** The usage line appended for one response; `stamp` is the formatted
      clock reading and `model` the model name. */
  function Entry(stamp: string, u: Usage, model: string): string {
    stamp + " - " + PromptKey + " " + ShowNat(u.prompt) + "," + " " + CompletionKey + " " + ShowNat(u.completion)
    + "," + " " + TotalKey + " " + ShowNat(u.total) + " " + model + "\n"
  }

  /** The two running-total lines. */
  function TotalsLines(c: Counts): seq<string> {
    [TotalPrefix + "トークン数: " + ShowInt(c.total) + "\n",
     TotalPrefix + "Prompt: " + ShowInt(c.prompt) + ", Completion: " + ShowInt(c.completion) + "\n"]
  }

  /** The totals after recording `u` on top of the log's lines. */
  function NewTotals(log: Option<seq<string>>, u: Usage): Counts {
    var kept := if log.Some? then Filtered(log.value, None) else [];
    Add(Sum(kept), OfUsage(u))
  }

  /** `append_token_usage_log`: the log's new lines, or `None` when the usage
      is missing and nothing is written. `log` is `None` when there is no
      log file yet. */
  function AppendUsage(usage: Option<Usage>, log: Option<seq<string>>, stamp: string, model: string)
    : (r: Option<seq<string>>)
    ensures r.None? <==> usage.None?
    ensures r.Some? ==> |r.value| >= 3 && r.value[|r.value| - 3] == Entry(stamp, usage.value, model)
    ensures r.Some? ==> r.value[|r.value| - 2..] == TotalsLines(NewTotals(log, usage.value))
  {
    match usage
    case None => None
    case Some(u) =>
      var kept := if log.Some? then Filtered(log.value, None) else [];
      Some(kept + [Entry(stamp, u, model)] + TotalsLines(NewTotals(log, u)))
  }

  // ---------------------------------------------------------------------------
  // Helpers on text
  // ---------------------------------------------------------------------------

  lemma MatchContains(s: string, p: string, i: int)
    requires MatchAt(s, p, i)
    ensures Contains(s, p)
  {
  }

  lemma SplitOnContains(s: string, sep: string)
    requires sep != [] && Contains(s, sep)
    ensures |SplitOn(s, sep)| >= 2
  {
    var k := Find(s, sep).value;
    assert SplitOn(s, sep) == [s[..k]] + SplitOn(s[k + |sep|..], sep);
  }

  /** A match begins with the pattern's first character. */
  lemma NoMatchBefore(s: string, p: string, n: int)
    requires p != [] && 0 <= n <= |s| && forall i :: 0 <= i < n ==> s[i] != p[0]
    ensures forall i :: 0 <= i < n ==> !MatchAt(s, p, i)
  {
    forall i | 0 <= i < n && MatchAt(s, p, i) ensures s[i] == p[0] {
      assert s[i] == s[i..i + |p|][0];
    }
  }

  /** The first piece of a split reaches at least as far as the first match. */
  lemma FirstPieceKeeps(x: string, sep: string, m: int)
    requires sep != [] && 0 <= m <= |x| && forall i :: 0 <= i < m ==> !MatchAt(x, sep, i)
    ensures |SplitOn(x, sep)[0]| >= m && SplitOn(x, sep)[0][..m] == x[..m]
  {
    match Find(x, sep)
    case None =>
    case Some(k) =>
      assert SplitOn(x, sep)[0] == x[..k];
  }

  /** The piece after the first `key`, when nothing before it starts one. */
  lemma SecondPiece(a: string, key: string, post: string)
    requires key != [] && forall i :: 0 <= i < |a| ==> a[i] != key[0]
    ensures |SplitOn(a + key + post, key)| >= 2
    ensures SplitOn(a + key + post, key)[1] == SplitOn(post, key)[0]
  {
    var s := a + key + post;
    assert forall i :: 0 <= i < |a| ==> s[i] == a[i];
    NoMatchBefore(s, key, |a|);
    SplitOnAt(a, key, post);
  }

  /** The first piece of `head + tail` begins with `head` when no match can
      start inside `head`. */
  lemma PieceHead(head: string, tail: string, key: string)
    requires key != [] && forall i :: 0 <= i < |head| ==> head[i] != key[0]
    ensures var y := SplitOn(head + tail, key)[0];
            |y| >= |head| && y == head + y[|head|..]
  {
    var x := head + tail;
    assert forall i :: 0 <= i < |head| ==> x[i] == head[i];
    NoMatchBefore(x, key, |head|);
    FirstPieceKeeps(x, key, |head|);
    var y := SplitOn(x, key)[0];
    assert x[..|head|] == head;
    assert y == y[..|head|] + y[|head|..];
  }

  /** `(" " + d + "," + rest).split(",")[0].strip()` is `d`. */
  lemma CommaField(d: string, rest: string)
    requires d != [] && AllDigits(d)
    ensures Strip(SplitOn(" " + d + "," + rest, ",")[0]) == d
  {
    var w := " " + d;
    assert forall i :: 0 <= i < |w| ==> w[i] == ' ' || IsDigit(w[i]);
    assert forall i :: 0 <= i < |w| ==> !MatchAt(w + "," + rest, ",", i) by {
      var s := w + "," + rest;
      assert forall i :: 0 <= i < |w| ==> s[i] == w[i];
      NoMatchBefore(s, ",", |w|);
    }
    SplitOnAt(w, ",", rest);
    AllDigitsNoSpace(d);
    StripPadded(" ", d, []);
    assert " " + d + [] == w;
  }

  /** `(" " + d + " " + rest).split()[0]` is `d`. */
  lemma SpaceField(d: string, rest: string)
    requires d != [] && AllDigits(d)
    ensures Split(" " + d + " " + rest) != [] && Split(" " + d + " " + rest)[0] == d
  {
    var y := " " + d + " " + rest;
    AllDigitsNoSpace(d);
    assert y[1..] == d + [' '] + rest;
    SplitWord(d, ' ', rest);
  }

  /** The number after `key` up to the next comma, as the source reads it. */
  lemma KeyedNumber(a: string, key: string, d: string, z: string)
    requires key != [] && key[0] != ' ' && key[0] != ',' && !IsDigit(key[0])
    requires forall i :: 0 <= i < |a| ==> a[i] != key[0]
    requires d != [] && AllDigits(d)
    ensures var s := a + key + " " + d + "," + z;
            |SplitOn(s, key)| >= 2 && Strip(SplitOn(SplitOn(s, key)[1], ",")[0]) == d
  {
    var head := " " + d + ",";
    assert a + key + " " + d + "," + z == a + key + (head + z);
    SecondPiece(a, key, head + z);
    assert forall i :: 0 <= i < |head| ==> head[i] == ' ' || head[i] == ',' || IsDigit(head[i]);
    PieceHead(head, z, key);
    var y := SplitOn(head + z, key)[0];
    assert y == " " + d + "," + y[|head|..];
    CommaField(d, y[|head|..]);
  }

  /** The first word after `key`, as the source reads the total. */
  lemma KeyedWord(a: string, key: string, d: string, z: string)
    requires key != [] && key[0] != ' ' && !IsDigit(key[0])
    requires forall i :: 0 <= i < |a| ==> a[i] != key[0]
    requires d != [] && AllDigits(d)
    ensures var s := a + key + " " + d + " " + z;
            |SplitOn(s, key)| >= 2 && Split(SplitOn(s, key)[1]) != [] && Split(SplitOn(s, key)[1])[0] == d
  {
    var head := " " + d + " ";
    assert a + key + " " + d + " " + z == a + key + (head + z);
    SecondPiece(a, key, head + z);
    assert forall i :: 0 <= i < |head| ==> head[i] == ' ' || IsDigit(head[i]);
    PieceHead(head, z, key);
    var y := SplitOn(head + z, key)[0];
    assert y == " " + d + " " + y[|head|..];
    SpaceField(d, y[|head|..]);
  }

  // ---------------------------------------------------------------------------
  // The written log read back
  // ---------------------------------------------------------------------------

  /** A clock reading formatted as `%Y-%m-%d %H:%M:%S`: digits, dashes,
      blanks and colons. */
  predicate Stamp(stamp: string) {
    forall i :: 0 <= i < |stamp| ==> IsDigit(stamp[i]) || stamp[i] == '-' || stamp[i] == ' ' || stamp[i] == ':'
  }

  predicate Avoids(s: string, c: char) {
    forall i :: 0 <= i < |s| ==> s[i] != c
  }

  lemma AvoidsJoin(a: string, b: string, c: char)
    requires Avoids(a, c) && Avoids(b, c)
    ensures Avoids(a + b, c)
  {
  }

  lemma KeyFacts()
    ensures PromptKey[0] == 'P' && CompletionKey[0] == 'C' && TotalKey[0] == 'T'
    ensures Avoids(" - ", 'P') && Avoids(" - ", 'C') && Avoids(" - ", 'T')
    ensures Avoids(PromptKey, 'C') && Avoids(PromptKey, 'T') && Avoids(CompletionKey, 'T')
    ensures Avoids(" ", 'C') && Avoids(" ", 'T') && Avoids(",", 'C') && Avoids(",", 'T')
  {
  }

  lemma DigitsAvoid(d: string, c: char)
    requires AllDigits(d) && !IsDigit(c)
    ensures Avoids(d, c)
  {
  }

  lemma StampAvoids(stamp: string, c: char)
    requires Stamp(stamp) && !IsDigit(c) && c != '-' && c != ' ' && c != ':'
    ensures Avoids(stamp, c)
  {
  }

  /** The usage line read back gives the counts written into it. */
  lemma EntryParses(stamp: string, u: Usage, model: string)
    requires Stamp(stamp)
    ensures ParseCounts(Entry(stamp, u, model)) == Some(OfUsage(u))
  {
    KeyFacts();
    var dp, dc, dt := ShowNat(u.prompt), ShowNat(u.completion), ShowNat(u.total);
    var s := Entry(stamp, u, model);
    var a1 := stamp + " - ";
    var a2 := a1 + PromptKey + " " + dp + "," + " ";
    var a3 := a2 + CompletionKey + " " + dc + "," + " ";
    var z3 := model + "\n";
    var z2 := " " + TotalKey + " " + dt + " " + z3;
    var z1 := " " + CompletionKey + " " + dc + "," + z2;
    EntryShape(stamp, dp, dc, dt, model, s);
    StampAvoids(stamp, 'P');
    StampAvoids(stamp, 'C');
    StampAvoids(stamp, 'T');
    DigitsAvoid(dp, 'C');
    DigitsAvoid(dp, 'T');
    DigitsAvoid(dc, 'T');
    AvoidsJoin(stamp, " - ", 'P');
    AvoidsJoin(stamp, " - ", 'C');
    AvoidsJoin(stamp, " - ", 'T');
    assert Avoids(a2, 'C') by {
      AvoidsJoin(a1, PromptKey, 'C');
      AvoidsJoin(a1 + PromptKey, " ", 'C');
      AvoidsJoin(a1 + PromptKey + " ", dp, 'C');
      AvoidsJoin(a1 + PromptKey + " " + dp, ",", 'C');
      AvoidsJoin(a1 + PromptKey + " " + dp + ",", " ", 'C');
    }
    assert Avoids(a3, 'T') by {
      AvoidsJoin(a1, PromptKey, 'T');
      AvoidsJoin(a1 + PromptKey, " ", 'T');
      AvoidsJoin(a1 + PromptKey + " ", dp, 'T');
      AvoidsJoin(a1 + PromptKey + " " + dp, ",", 'T');
      AvoidsJoin(a1 + PromptKey + " " + dp + ",", " ", 'T');
      AvoidsJoin(a2, CompletionKey, 'T');
      AvoidsJoin(a2 + CompletionKey, " ", 'T');
      AvoidsJoin(a2 + CompletionKey + " ", dc, 'T');
      AvoidsJoin(a2 + CompletionKey + " " + dc, ",", 'T');
      AvoidsJoin(a2 + CompletionKey + " " + dc + ",", " ", 'T');
    }
    assert !IsDigit('P') && !IsDigit('C') && !IsDigit('T');
    KeyedNumber(a1, PromptKey, dp, z1);
    KeyedNumber(a2, CompletionKey, dc, z2);
    KeyedWord(a3, TotalKey, dt, z3);
    KeyAt(a1, PromptKey, " " + dp + "," + z1);
    KeyAt(a2, CompletionKey, " " + dc + "," + z2);
    KeyAt(a3, TotalKey, " " + dt + " " + z3);
    ParseShowNat(u.prompt);
    ParseShowNat(u.completion);
    ParseShowNat(u.total);
    AllDigitsNoSpace(dt);
    StripStripped(dt);
  }

  lemma KeyAt(a: string, key: string, rest: string)
    ensures Contains(a + key + rest, key)
  {
    var s := a + key + rest;
    assert s[|a|..|a| + |key|] == key;
    MatchContains(s, key, |a|);
  }

  /** The usage line seen from each of its three labels. */
  lemma EntryShape(stamp: string, dp: string, dc: string, dt: string, model: string, s: string)
    requires s == stamp + " - " + PromptKey + " " + dp + "," + " " + CompletionKey + " " + dc
                 + "," + " " + TotalKey + " " + dt + " " + model + "\n"
    ensures var a1 := stamp + " - ";
            var a2 := a1 + PromptKey + " " + dp + "," + " ";
            var a3 := a2 + CompletionKey + " " + dc + "," + " ";
            var z3 := model + "\n";
            var z2 := " " + TotalKey + " " + dt + " " + z3;
            var z1 := " " + CompletionKey + " " + dc + "," + z2;
            s == a1 + PromptKey + " " + dp + "," + z1
            && s == a1 + PromptKey + (" " + dp + "," + z1)
            && s == a2 + CompletionKey + " " + dc + "," + z2
            && s == a2 + CompletionKey + (" " + dc + "," + z2)
            && s == a3 + TotalKey + " " + dt + " " + z3
            && s == a3 + TotalKey + (" " + dt + " " + z3)
  {
    Chain(stamp, " - ", PromptKey, " ", dp, ",", " ", CompletionKey, " ", dc, ",", " ", TotalKey, " ", dt, " ", model, "\n");
  }

  /** Regrouping the seventeen pieces of a usage line. */
  lemma ChainFirst(x1: string, x2: string, x3: string, x4: string, x5: string, x6: string, x7: string, x8: string,
              x9: string, x10: string, x11: string, x12: string, x13: string, x14: string, x15: string,
              x16: string, x17: string, x18: string)
    ensures var s := x1 + x2 + x3 + x4 + x5 + x6 + x7 + x8 + x9 + x10 + x11 + x12 + x13 + x14 + x15 + x16 + x17 + x18;
            var z1 := x7 + x8 + x9 + x10 + x11 + (x12 + x13 + x14 + x15 + x16 + (x17 + x18));
            s == x1 + x2 + x3 + x4 + x5 + x6 + z1 && s == x1 + x2 + x3 + (x4 + x5 + x6 + z1)
  {
  }

  lemma ChainSecond(x1: string, x2: string, x3: string, x4: string, x5: string, x6: string, x7: string, x8: string,
              x9: string, x10: string, x11: string, x12: string, x13: string, x14: string, x15: string,
              x16: string, x17: string, x18: string)
    ensures var s := x1 + x2 + x3 + x4 + x5 + x6 + x7 + x8 + x9 + x10 + x11 + x12 + x13 + x14 + x15 + x16 + x17 + x18;
            var z2 := x12 + x13 + x14 + x15 + x16 + (x17 + x18);
            var a2 := x1 + x2 + x3 + x4 + x5 + x6 + x7;
            s == a2 + x8 + x9 + x10 + x11 + z2 && s == a2 + x8 + (x9 + x10 + x11 + z2)
  {
  }

  lemma ChainThird(x1: string, x2: string, x3: string, x4: string, x5: string, x6: string, x7: string, x8: string,
              x9: string, x10: string, x11: string, x12: string, x13: string, x14: string, x15: string,
              x16: string, x17: string, x18: string)
    ensures var s := x1 + x2 + x3 + x4 + x5 + x6 + x7 + x8 + x9 + x10 + x11 + x12 + x13 + x14 + x15 + x16 + x17 + x18;
            var a3 := x1 + x2 + x3 + x4 + x5 + x6 + x7 + x8 + x9 + x10 + x11 + x12;
            s == a3 + x13 + x14 + x15 + x16 + (x17 + x18) && s == a3 + x13 + (x14 + x15 + x16 + (x17 + x18))
  {
  }

  lemma Chain(x1: string, x2: string, x3: string, x4: string, x5: string, x6: string, x7: string, x8: string,
              x9: string, x10: string, x11: string, x12: string, x13: string, x14: string, x15: string,
              x16: string, x17: string, x18: string)
    ensures var s := x1 + x2 + x3 + x4 + x5 + x6 + x7 + x8 + x9 + x10 + x11 + x12 + x13 + x14 + x15 + x16 + x17 + x18;
            var z3 := x17 + x18;
            var z2 := x12 + x13 + x14 + x15 + x16 + z3;
            var z1 := x7 + x8 + x9 + x10 + x11 + z2;
            var a1 := x1 + x2;
            var a2 := a1 + x3 + x4 + x5 + x6 + x7;
            var a3 := a2 + x8 + x9 + x10 + x11 + x12;
            s == a1 + x3 + x4 + x5 + x6 + z1
            && s == a1 + x3 + (x4 + x5 + x6 + z1)
            && s == a2 + x8 + x9 + x10 + x11 + z2
            && s == a2 + x8 + (x9 + x10 + x11 + z2)
            && s == a3 + x13 + x14 + x15 + x16 + z3
            && s == a3 + x13 + (x14 + x15 + x16 + z3)
  {
    ChainFirst(x1, x2, x3, x4, x5, x6, x7, x8, x9, x10, x11, x12, x13, x14, x15, x16, x17, x18);
    ChainSecond(x1, x2, x3, x4, x5, x6, x7, x8, x9, x10, x11, x12, x13, x14, x15, x16, x17, x18);
    ChainThird(x1, x2, x3, x4, x5, x6, x7, x8, x9, x10, x11, x12, x13, x14, x15, x16, x17, x18);
  }

  /** Lines the filter passes unchanged after `prev`: no summary, none equal
      to the line before it. */
  predicate Clean(lines: seq<string>, prev: Option<string>)
    decreases |lines|
  {
    lines == [] || (!Summary(lines[0]) && prev != Some(lines[0]) && Clean(lines[1..], Some(lines[0])))
  }

  /** The last line kept, given the one before `lines`. */
  function LastOf(lines: seq<string>, prev: Option<string>): Option<string> {
    if lines == [] then prev else Some(lines[|lines| - 1])
  }

  lemma {:induction false} FilteredIsClean(lines: seq<string>, prev: Option<string>)
    ensures Clean(Filtered(lines, prev), prev)
    decreases |lines|
  {
    if lines != [] {
      FilteredIsClean(lines[1..], prev);
      FilteredIsClean(lines[1..], Some(lines[0]));
      if !(Summary(lines[0]) || prev == Some(lines[0])) {
        var r := [lines[0]] + Filtered(lines[1..], Some(lines[0]));
        assert r[1..] == Filtered(lines[1..], Some(lines[0]));
      }
    }
  }

  /** Clean lines pass through the filter, which then carries on after them. */
  lemma {:induction false} FilteredClean(lines: seq<string>, prev: Option<string>, rest: seq<string>)
    requires Clean(lines, prev)
    ensures Filtered(lines + rest, prev) == lines + Filtered(rest, LastOf(lines, prev))
    decreases |lines|
  {
    if lines == [] {
      assert lines + rest == rest;
    } else {
      assert (lines + rest)[1..] == lines[1..] + rest;
      FilteredClean(lines[1..], Some(lines[0]), rest);
      if |lines| > 1 {
        assert lines[1..][|lines| - 2] == lines[|lines| - 1];
      }
      assert lines == [lines[0]] + lines[1..];
    }
  }

  lemma EntryIsNoSummary(stamp: string, u: Usage, model: string)
    requires Stamp(stamp)
    ensures !Summary(Entry(stamp, u, model))
  {
    var s := Entry(stamp, u, model);
    assert TotalPrefix[0] == '累' && CostPrefix[0] == '推';
    if stamp != [] {
      assert s[0] == stamp[0];
    } else {
      assert s[0] == ' ';
    }
  }

  lemma TotalsAreSummaries(c: Counts)
    ensures forall i :: 0 <= i < |TotalsLines(c)| ==> Summary(TotalsLines(c)[i])
  {
    var ls := TotalsLines(c);
    assert ls[0][..|TotalPrefix|] == TotalPrefix;
    assert ls[1][..|TotalPrefix|] == TotalPrefix;
  }

  lemma {:induction false} SummariesVanish(tl: seq<string>, prev: Option<string>)
    requires forall i :: 0 <= i < |tl| ==> Summary(tl[i])
    ensures Filtered(tl, prev) == []
    decreases |tl|
  {
    if tl != [] {
      assert forall i :: 0 <= i < |tl| - 1 ==> tl[1..][i] == tl[i + 1];
      SummariesVanish(tl[1..], prev);
    }
  }

  /** The usage line followed by the running totals filters down to the
      usage line, or to nothing when it repeats `prev`. */
  lemma WrittenTail(entry: string, tl: seq<string>, prev: Option<string>)
    requires !Summary(entry) && forall i :: 0 <= i < |tl| ==> Summary(tl[i])
    ensures Filtered([entry] + tl, prev) == if prev == Some(entry) then [] else [entry]
  {
    assert ([entry] + tl)[1..] == tl;
    SummariesVanish(tl, prev);
    SummariesVanish(tl, Some(entry));
  }

  /** What the next call reads back from the file just written: the kept
      lines and the new usage line, whose counts sum to the running totals
      just written, unless the usage line repeats the last line kept. */
  lemma ReReadAgrees(usage: Usage, log: Option<seq<string>>, stamp: string, model: string)
    requires Stamp(stamp)
    requires var kept := if log.Some? then Filtered(log.value, None) else [];
             kept == [] || kept[|kept| - 1] != Entry(stamp, usage, model)
    ensures var kept := if log.Some? then Filtered(log.value, None) else [];
            var out := AppendUsage(Some(usage), log, stamp, model).value;
            Filtered(out, None) == kept + [Entry(stamp, usage, model)]
            && Sum(Filtered(out, None)) == NewTotals(log, usage)
  {
    var kept := if log.Some? then Filtered(log.value, None) else [];
    var entry := Entry(stamp, usage, model);
    var tl := TotalsLines(NewTotals(log, usage));
    var out := kept + [entry] + tl;
    if log.Some? { FilteredIsClean(log.value, None); }
    assert out == kept + ([entry] + tl);
    FilteredClean(kept, None, [entry] + tl);
    EntryIsNoSummary(stamp, usage, model);
    TotalsAreSummaries(NewTotals(log, usage));
    WrittenTail(entry, tl, LastOf(kept, None));
    SumSnoc(kept, entry);
    EntryParses(stamp, usage, model);
  }

  /** A usage line identical to the last one kept (same second, same counts,
      same model) is dropped as a repeat on the next read, so its tokens
      vanish from the running totals recomputed then. */
  lemma RepeatedEntryMerges(usage: Usage, log: seq<string>, stamp: string, model: string)
    requires Stamp(stamp)
    requires var kept := Filtered(log, None); kept != [] && kept[|kept| - 1] == Entry(stamp, usage, model)
    ensures Filtered(AppendUsage(Some(usage), Some(log), stamp, model).value, None) == Filtered(log, None)
  {
    var kept := Filtered(log, None);
    var entry := Entry(stamp, usage, model);
    var tl := TotalsLines(NewTotals(Some(log), usage));
    FilteredIsClean(log, None);
    assert kept + [entry] + tl == kept + ([entry] + tl);
    FilteredClean(kept, None, [entry] + tl);
    TotalsAreSummaries(NewTotals(Some(log), usage));
    EntryIsNoSummary(stamp, usage, model);
    WrittenTail(entry, tl, LastOf(kept, None));
    assert kept + [] == kept;
  }

  // ---------------------------------------------------------------------------
  // The log as text
  // ---------------------------------------------------------------------------

  /** A line as `readlines` returns it from inside a file: one line break,
      at its end. */
  predicate Terminated(line: string) {
    line != [] && line[|line| - 1] == '\n' && Avoids(line[..|line| - 1], '\n')
  }

  /** The text that writing `lines` one after the other produces. */
  function Concat(lines: seq<string>): string
    decreases |lines|
  {
    if lines == [] then "" else lines[0] + Concat(lines[1..])
  }

  /** Length of the first line of `s`, its line break included. */
  function LineLength(s: string): (k: nat)
    requires s != []
    ensures 0 < k <= |s| && Avoids(s[..k - 1], '\n') && (k < |s| ==> s[k - 1] == '\n')
    decreases |s|
  {
    if |s| == 1 || s[0] == '\n' then 1
    else
      var k := LineLength(s[1..]);
      assert s[..k] == [s[0]] + s[1..][..k - 1];
      1 + k
  }

  /** `readlines` on the text of a file (after newline translation): every
      line keeps its break, and a last line without one comes back as is. */
  function ReadLines(s: string): (r: seq<string>)
    ensures Concat(r) == s
    ensures forall i :: 0 <= i < |r| ==> r[i] != []
    ensures forall i :: 0 <= i < |r| - 1 ==> Terminated(r[i])
    decreases |s|
  {
    if s == [] then []
    else
      var k := LineLength(s);
      var t := ReadLines(s[k..]);
      assert ([s[..k]] + t)[1..] == t;
      assert s[..k] + s[k..] == s;
      assert t != [] ==> Terminated(s[..k]) by {
        if t != [] { assert s[..k][..k - 1] == s[..k - 1]; }
      }
      [s[..k]] + t
  }

  lemma {:induction false} ConcatAppend(a: seq<string>, b: seq<string>)
    ensures Concat(a + b) == Concat(a) + Concat(b)
    decreases |a|
  {
    if a == [] {
      assert a + b == b;
    } else {
      assert (a + b)[1..] == a[1..] + b;
      ConcatAppend(a[1..], b);
    }
  }

  lemma {:induction false} LineLengthTerminated(x: string, rest: string)
    requires Terminated(x)
    ensures LineLength(x + rest) == |x|
    decreases |x|
  {
    if |x| > 1 {
      assert x[0] == x[..|x| - 1][0];
      assert (x + rest)[1..] == x[1..] + rest;
      assert x[1..][..|x| - 2] == x[..|x| - 1][1..];
      LineLengthTerminated(x[1..], rest);
    }
  }

  /** Text written line by line reads back as the same lines when every line
      carries its one break at its end. */
  lemma {:induction false} ReadLinesConcat(lines: seq<string>)
    requires forall i :: 0 <= i < |lines| ==> Terminated(lines[i])
    ensures ReadLines(Concat(lines)) == lines
    decreases |lines|
  {
    if lines != [] {
      var x := lines[0];
      var s := Concat(lines);
      ReadLinesConcat(lines[1..]);
      LineLengthTerminated(x, Concat(lines[1..]));
      assert s[..|x|] == x && s[|x|..] == Concat(lines[1..]);
      assert [x] + lines[1..] == lines;
    }
  }

  lemma ConcatGlue(x: string, line: string, rest: seq<string>)
    ensures Concat([x, line] + rest) == Concat([x + line] + rest)
  {
    assert ([x, line] + rest)[1..] == [line] + rest;
    assert ([line] + rest)[1..] == rest;
    assert ([x + line] + rest)[1..] == rest;
  }

  lemma GlueTerminated(x: string, line: string)
    requires Avoids(x, '\n') && Terminated(line)
    ensures Terminated(x + line)
  {
    assert (x + line)[..|x + line| - 1] == x + line[..|line| - 1];
  }

  /** A line without its break is read back glued to the line written after
      it. */
  lemma GluedLine(x: string, line: string, rest: seq<string>)
    requires Avoids(x, '\n') && Terminated(line)
    requires forall i :: 0 <= i < |rest| ==> Terminated(rest[i])
    ensures ReadLines(Concat([x, line] + rest)) == [x + line] + rest
  {
    var glued := [x + line] + rest;
    ConcatGlue(x, line, rest);
    GlueTerminated(x, line);
    assert forall i :: 0 <= i < |glued| ==> Terminated(glued[i]) by {
      forall i | 0 <= i < |glued| ensures Terminated(glued[i]) {
        if i > 0 { assert glued[i] == rest[i - 1]; }
      }
    }
    ReadLinesConcat(glued);
  }

  lemma ShowIntAvoids(n: int)
    ensures Avoids(ShowInt(n), '\n')
  {
    if n < 0 { DigitsAvoid(ShowNat(-n), '\n'); } else { DigitsAvoid(ShowNat(n), '\n'); }
  }

  lemma EntryTerminated(stamp: string, u: Usage, model: string)
    requires Stamp(stamp) && Avoids(model, '\n')
    ensures Terminated(Entry(stamp, u, model))
  {
    var e := Entry(stamp, u, model);
    StampAvoids(stamp, '\n');
    DigitsAvoid(ShowNat(u.prompt), '\n');
    DigitsAvoid(ShowNat(u.completion), '\n');
    DigitsAvoid(ShowNat(u.total), '\n');
    assert e[..|e| - 1] == stamp + " - " + PromptKey + " " + ShowNat(u.prompt) + "," + " " + CompletionKey + " "
      + ShowNat(u.completion) + "," + " " + TotalKey + " " + ShowNat(u.total) + " " + model;
  }

  lemma TotalsTerminated(c: Counts)
    ensures forall i :: 0 <= i < |TotalsLines(c)| ==> Terminated(TotalsLines(c)[i])
  {
    ShowIntAvoids(c.total);
    ShowIntAvoids(c.prompt);
    ShowIntAvoids(c.completion);
    var a := TotalsLines(c)[0];
    var b := TotalsLines(c)[1];
    assert a[..|a| - 1] == TotalPrefix + "トークン数: " + ShowInt(c.total);
    assert b[..|b| - 1] == TotalPrefix + "Prompt: " + ShowInt(c.prompt) + ", Completion: " + ShowInt(c.completion);
  }

  /** The rewritten file read back as text: when every kept line carries its
      break and the model name has none, `readlines` on the text written
      gives the written lines back, so the next call keeps the old lines and
      the new usage line, and sums to the totals just written. */
  lemma ReReadText(usage: Usage, log: Option<seq<string>>, stamp: string, model: string)
    requires Stamp(stamp) && Avoids(model, '\n')
    requires var kept := if log.Some? then Filtered(log.value, None) else [];
             forall i :: 0 <= i < |kept| ==> Terminated(kept[i])
    requires var kept := if log.Some? then Filtered(log.value, None) else [];
             kept == [] || kept[|kept| - 1] != Entry(stamp, usage, model)
    ensures var kept := if log.Some? then Filtered(log.value, None) else [];
            var out := AppendUsage(Some(usage), log, stamp, model).value;
            var back := ReadLines(Concat(out));
            back == out && Filtered(back, None) == kept + [Entry(stamp, usage, model)]
            && Sum(Filtered(back, None)) == NewTotals(log, usage)
  {
    var kept := if log.Some? then Filtered(log.value, None) else [];
    var entry := Entry(stamp, usage, model);
    var tl := TotalsLines(NewTotals(log, usage));
    var out := kept + [entry] + tl;
    EntryTerminated(stamp, usage, model);
    TotalsTerminated(NewTotals(log, usage));
    assert forall i :: 0 <= i < |out| ==> Terminated(out[i]) by {
      forall i | 0 <= i < |out| ensures Terminated(out[i]) {
        if i < |kept| { assert out[i] == kept[i]; }
        else if i == |kept| { assert out[i] == entry; }
        else { assert out[i] == tl[i - |kept| - 1]; }
      }
    }
    ReadLinesConcat(out);
    ReReadAgrees(usage, log, stamp, model);
  }

  lemma GluedText(front: seq<string>, x: string, line: string, rest: seq<string>)
    ensures Concat(front + ([x, line] + rest)) == Concat(front + ([x + line] + rest))
  {
    ConcatAppend(front, [x, line] + rest);
    ConcatAppend(front, [x + line] + rest);
    ConcatGlue(x, line, rest);
  }

  lemma AllTerminated(front: seq<string>, y: string, rest: seq<string>)
    requires forall i :: 0 <= i < |front| ==> Terminated(front[i])
    requires Terminated(y)
    requires forall i :: 0 <= i < |rest| ==> Terminated(rest[i])
    ensures var all := front + ([y] + rest); forall i :: 0 <= i < |all| ==> Terminated(all[i])
  {
    var all := front + ([y] + rest);
    forall i | 0 <= i < |all| ensures Terminated(all[i]) {
      if i < |front| { assert all[i] == front[i]; }
      else if i == |front| { assert all[i] == y; }
      else { assert all[i] == rest[i - |front| - 1]; }
    }
  }

  lemma Regroup(front: seq<string>, x: string, y: string, rest: seq<string>)
    ensures front + [x] + [y] + rest == front + ([x, y] + rest)
    ensures front + [x + y] + rest == front + ([x + y] + rest)
  {
  }

  /** `GluedLine` after lines that all carry their break. */
  lemma GluedAfter(front: seq<string>, x: string, line: string, rest: seq<string>)
    requires forall i :: 0 <= i < |front| ==> Terminated(front[i])
    requires Avoids(x, '\n') && Terminated(line)
    requires forall i :: 0 <= i < |rest| ==> Terminated(rest[i])
    ensures ReadLines(Concat(front + ([x, line] + rest))) == front + ([x + line] + rest)
  {
    GluedText(front, x, line, rest);
    GlueTerminated(x, line);
    AllTerminated(front, x + line, rest);
    ReadLinesConcat(front + ([x + line] + rest));
  }

  /** The kept lines before the last one all carry their break. */
  lemma FrontTerminated(kept: seq<string>, front: seq<string>)
    requires kept != [] && front == kept[..|kept| - 1]
    requires forall i :: 0 <= i < |kept| - 1 ==> Terminated(kept[i])
    ensures kept == front + [kept[|kept| - 1]]
    ensures forall i :: 0 <= i < |front| ==> Terminated(front[i])
  {
  }

  /** `GluedAfter` stated on the lines kept from the old log. */
  lemma GluedAfterKept(kept: seq<string>, line: string, rest: seq<string>)
    requires kept != [] && Avoids(kept[|kept| - 1], '\n')
    requires forall i :: 0 <= i < |kept| - 1 ==> Terminated(kept[i])
    requires Terminated(line)
    requires forall i :: 0 <= i < |rest| ==> Terminated(rest[i])
    ensures ReadLines(Concat(kept + [line] + rest)) == kept[..|kept| - 1] + [kept[|kept| - 1] + line] + rest
  {
    var front := kept[..|kept| - 1];
    var x := kept[|kept| - 1];
    FrontTerminated(kept, front);
    Regroup(front, x, line, rest);
    GluedAfter(front, x, line, rest);
  }

  /** The case the text round trip leaves: an old log whose last kept line
      lacks its break (a file that did not end in one) reads back with the
      new usage line glued to that line. */
  lemma ReReadGlued(usage: Usage, log: seq<string>, stamp: string, model: string)
    requires Stamp(stamp) && Avoids(model, '\n')
    requires var kept := Filtered(log, None);
             kept != [] && Avoids(kept[|kept| - 1], '\n')
             && forall i :: 0 <= i < |kept| - 1 ==> Terminated(kept[i])
    ensures var kept := Filtered(log, None);
            var out := AppendUsage(Some(usage), Some(log), stamp, model).value;
            ReadLines(Concat(out))
            == kept[..|kept| - 1] + [kept[|kept| - 1] + Entry(stamp, usage, model)] + TotalsLines(NewTotals(Some(log), usage))
  {
    var kept := Filtered(log, None);
    var entry := Entry(stamp, usage, model);
    var tl := TotalsLines(NewTotals(Some(log), usage));
    assert AppendUsage(Some(usage), Some(log), stamp, model).value == kept + [entry] + tl;
    EntryTerminated(stamp, usage, model);
    TotalsTerminated(NewTotals(Some(log), usage));
    GluedAfterKept(kept, entry, tl);
  }
}
