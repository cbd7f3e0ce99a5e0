/**
 The two file helpers `save_response_to_file` and `append_to_script_log` of
 `_LLM/LLM_manager.py`. Files are their contents: `None` is a file that does
 not exist or is not written, `Some(text)` its whole text.
 */
module ScriptLog {
  import opened Wrappers
  import opened PyStr

  // ---------------------------------------------------------------------------
  // save_response_to_file
  // ---------------------------------------------------------------------------

  const Fence := "```"
  const PythonFence := "```python\n"

  lemma FenceShape()
    ensures Fence == ['`', '`', '`'] && |PythonFence| == 10 && PythonFence[..3] == Fence
  {
  }

  /** No code fence anywhere in `s`. */
  predicate NoFence(s: string) {
    forall i :: 0 <= i <= |s| ==> !MatchAt(s, Fence, i)
  }

  /** The script text saved from a reply: trimmed, the opening
      "```python" line removed, then every remaining fence removed. */
  function Clean(content: string): string {
    ReplaceAll(ReplaceAll(Strip(content), PythonFence, ""), Fence, "")
  }

  /** `save_response_to_file`: a missing reply writes nothing. */
  function SaveResponse(reply: Option<string>): (file: Option<string>)
    ensures file.None? <==> reply.None?
    ensures file.Some? ==> NoFence(file.value)
  {
    match reply
    case None => None
    case Some(content) =>
      FencesRemoved(ReplaceAll(Strip(content), PythonFence, ""));
      Some(Clean(content))
  }

  /** If the result of removing fences begins with a backtick, so does the
      text it came from. */
  lemma FenceFreeHead(t: string)
    requires ReplaceAll(t, Fence, "") != [] && ReplaceAll(t, Fence, "")[0] == '`'
    ensures t != [] && t[0] == '`'
  {
    FenceShape();
    if |t| >= 3 && t[..3] == Fence {
      assert t[0] == Fence[0];
    } else if |t| >= 3 {
      assert ReplaceAll(t, Fence, "") == [t[0]] + ReplaceAll(t[1..], Fence, "");
    }
  }

  /** If the result of removing fences begins with two backticks, so does the
      text it came from. */
  lemma FenceFreeHead2(t: string)
    requires |ReplaceAll(t, Fence, "")| >= 2
    requires ReplaceAll(t, Fence, "")[0] == '`' && ReplaceAll(t, Fence, "")[1] == '`'
    ensures |t| >= 2 && t[0] == '`' && t[1] == '`'
  {
    FenceShape();
    if |t| >= 3 && t[..3] == Fence {
      assert t[0] == Fence[0] && t[1] == Fence[1];
    } else if |t| >= 3 {
      var r' := ReplaceAll(t[1..], Fence, "");
      assert ReplaceAll(t, Fence, "") == [t[0]] + r';
      FenceFreeHead(t[1..]);
    }
  }

  /** Removing every leftmost fence leaves no fence behind: a backtick
      kept in front of the rest can never join backticks that follow it. */
  lemma {:induction false} FencesRemoved(s: string)
    ensures NoFence(ReplaceAll(s, Fence, ""))
    decreases |s|
  {
    FenceShape();
    var r := ReplaceAll(s, Fence, "");
    if |s| < 3 {
      assert r == s;
    } else if s[..3] == Fence {
      FencesRemoved(s[3..]);
      assert s[..|Fence|] == Fence;
      assert r == ReplaceAll(s[|Fence|..], Fence, "");
    } else {
      var r' := ReplaceAll(s[1..], Fence, "");
      assert r == [s[0]] + r';
      FencesRemoved(s[1..]);
      forall i ensures !MatchAt(r, Fence, i) {
        if i == 0 && MatchAt(r, Fence, 0) {
          assert r[..3] == Fence;
          assert r[0] == r[..3][0] && r[1] == r[..3][1] && r[2] == r[..3][2];
          assert r[1] == r'[0] && r[2] == r'[1];
          FenceFreeHead2(s[1..]);
          assert false;
        } else if i > 0 && MatchAt(r, Fence, i) {
          assert r[i..i + 3] == r'[i - 1..i - 1 + 3];
          assert MatchAt(r', Fence, i - 1);
        }
      }
    }
  }

  /** Replacing a pattern that never occurs changes nothing. */
  lemma {:induction false} ReplaceAbsent(s: string, p: string, q: string)
    requires p != [] && forall i :: !MatchAt(s, p, i)
    ensures ReplaceAll(s, p, q) == s
    decreases |s|
  {
    if |s| >= |p| {
      assert !MatchAt(s, p, 0);
      forall i ensures !MatchAt(s[1..], p, i) {
        if 0 <= i {
          MatchShift(s, p, i);
          assert !MatchAt(s, p, i + 1);
        }
      }
      ReplaceAbsent(s[1..], p, q);
      assert s == [s[0]] + s[1..];
    }
  }

  /** A fence-free reply is saved only trimmed. */
  lemma PlainReplyOnlyTrimmed(content: string)
    requires NoFence(Strip(content))
    ensures SaveResponse(Some(content)) == Some(Strip(content))
  {
    FenceShape();
    var t := Strip(content);
    forall i ensures !MatchAt(t, PythonFence, i) {
      if MatchAt(t, PythonFence, i) {
        assert t[i..i + 3] == t[i..i + 11][..3];
        assert PythonFence[..3] == Fence;
        assert MatchAt(t, Fence, i);
      }
    }
    ReplaceAbsent(t, PythonFence, "");
    ReplaceAbsent(t, Fence, "");
  }

  /** A trailing fence after fence-free code that does not end in a backtick
      is removed and nothing else is. */
  lemma {:induction false} ClosingFenceRemoved(code: string)
    requires NoFence(code) && (code == [] || code[|code| - 1] != '`')
    ensures ReplaceAll(code + Fence, Fence, "") == code
    decreases |code|
  {
    FenceShape();
    var s := code + Fence;
    if code == [] {
      assert s == Fence;
      assert s[3..] == [];
    } else {
      if |code| >= 3 {
        assert s[..3] == code[..3];
        assert !MatchAt(code, Fence, 0);
      } else {
        assert s[..3] != Fence by {
          assert s[|code| - 1] == code[|code| - 1];
        }
      }
      forall i ensures !MatchAt(code[1..], Fence, i) {
        if 0 <= i { MatchShift(code, Fence, i); }
      }
      ClosingFenceRemoved(code[1..]);
      assert s[1..] == code[1..] + Fence;
      assert code == [code[0]] + code[1..];
    }
  }

  /** The opening line is removed and, the code being fence-free, nothing
      else is. */
  lemma OpeningLineRemoved(code: string)
    requires NoFence(code)
    ensures ReplaceAll(PythonFence + code + Fence, PythonFence, "") == code + Fence
  {
    FenceShape();
    var body := code + Fence;
    var reply := PythonFence + code + Fence;
    assert reply == PythonFence + body;
    assert reply[..|PythonFence|] == PythonFence;
    assert reply[|PythonFence|..] == body;
    assert ReplaceAll(reply, PythonFence, "") == ReplaceAll(body, PythonFence, "");
    forall i ensures !MatchAt(body, PythonFence, i) {
      if MatchAt(body, PythonFence, i) {
        assert body[i..i + 3] == body[i..i + 10][..3];
        assert body[i..i + 3] == code[i..i + 3];
        assert MatchAt(code, Fence, i);
      }
    }
    ReplaceAbsent(body, PythonFence, "");
  }

  /** A reply that is one fenced Python block, the code inside without
      fences, is saved as exactly that code. */
  lemma FencedReplySavesCode(code: string)
    requires NoFence(code) && code != [] && code[|code| - 1] != '`'
    ensures SaveResponse(Some(PythonFence + code + Fence)) == Some(code)
  {
    FenceShape();
    var reply := PythonFence + code + Fence;
    assert Stripped(reply) by {
      assert reply[0] == PythonFence[0] && reply[|reply| - 1] == Fence[2];
    }
    StripStripped(reply);
    OpeningLineRemoved(code);
    ClosingFenceRemoved(code);
  }

  // ---------------------------------------------------------------------------
  // append_to_script_log
  // ---------------------------------------------------------------------------

  /** The line written before every entry of the script log. */
  const Sep := "============ New Script Entry ============"

  /** What the reading and writing below need of a separator: it is not
      empty and holds no line break. The proofs are stated for any such
      separator and used with `Sep`. */
  predicate Separator(sep: string) {
    sep != [] && forall k :: 0 <= k < |sep| ==> sep[k] != '\n'
  }

  lemma SepIsSeparator()
    ensures Separator(Sep)
  {
  }

  /** An entry as the log holds it: trimmed, non-empty, free of the separator. */
  predicate Tidy(sep: string, e: string)
    requires sep != []
  {
    e != [] && Strip(e) == e && !Contains(e, sep)
  }

  /** The pieces of a split, trimmed, with the empty ones dropped. */
  function Keep(sep: string, pieces: seq<string>): (es: seq<string>)
    requires sep != []
    ensures |es| <= |pieces|
    ensures forall i :: 0 <= i < |es| ==> es[i] != [] && Strip(es[i]) == es[i]
    ensures (forall i :: 0 <= i < |pieces| ==> !Contains(pieces[i], sep))
            ==> forall i :: 0 <= i < |es| ==> Tidy(sep, es[i])
  {
    if pieces == [] then []
    else
      var e := Strip(pieces[0]);
      StripStripped(e);
      StripKeepsAbsent(pieces[0], sep);
      var rest := Keep(sep, pieces[1..]);
      assert forall i :: 0 <= i < |pieces| - 1 ==> pieces[1..][i] == pieces[i + 1];
      (if e == [] then [] else [e]) + rest
  }

  /** The entries a log file holds: its text split at the separator, each
      piece trimmed, the empty pieces dropped. */
  function Parse(sep: string, raw: string): (es: seq<string>)
    requires sep != []
    ensures forall i :: 0 <= i < |es| ==> Tidy(sep, es[i])
  {
    Keep(sep, SplitOn(raw, sep))
  }

  /** The log text written for a list of entries: each trimmed entry after a
      separator and a blank line, entries parted by three blank lines. */
  function Serialize(sep: string, es: seq<string>): (raw: string)
    ensures es != [] ==> |raw| >= |sep| && raw[..|sep|] == sep
    decreases |es|
  {
    if |es| == 0 then ""
    else if |es| == 1 then sep + "\n\n" + Strip(es[0])
    else sep + "\n\n" + Strip(es[0]) + "\n\n\n\n" + Serialize(sep, es[1..])
  }

  /** `entries[-m:]` for a Python integer `m`: the last `m` when positive,
      everything when zero, all but the first `-m` when negative. */
  function PyTail<T>(xs: seq<T>, m: int): (r: seq<T>)
    ensures m > 0 ==> |r| == if m < |xs| then m else |xs|
    ensures m > 0 ==> r == xs[|xs| - |r|..]
    ensures m == 0 ==> r == xs
    ensures m < 0 ==> r == xs[if -m < |xs| then -m else |xs|..]
  {
    if m > 0 then xs[if m < |xs| then |xs| - m else 0..]
    else if m == 0 then xs
    else xs[if -m < |xs| then -m else |xs|..]
  }

  /** The entries kept from an existing log; none when there is no log. */
  function Previous(log: Option<string>): seq<string> {
    match log
    case None => []
    case Some(raw) => Parse(Sep, raw)
  }

  /** `append_to_script_log`: the log file's new text, or `None` when the
      script file is missing and nothing is written. `max` is `max_entries`,
      3 at every call site. */
  function Append(script: Option<string>, log: Option<string>, max: int): (r: Option<string>)
    ensures r.None? <==> script.None?
  {
    match script
    case None => None
    case Some(content) => Some(Serialize(Sep, PyTail(Previous(log) + [Strip(content)], max)))
  }

  /** Entries trimmed, with the empty ones dropped. */
  function Cleaned(es: seq<string>): seq<string>
    decreases |es|
  {
    if es == [] then []
    else (if Strip(es[0]) == [] then [] else [Strip(es[0])]) + Cleaned(es[1..])
  }

  /** Trimming cannot create an occurrence: the trimmed text is a slice. */
  lemma StripKeepsAbsent(s: string, p: string)
    requires p != []
    ensures !Contains(s, p) ==> !Contains(Strip(s), p)
  {
    var a := SpaceRun(s);
    var l := s[a..];
    var k := SpaceTail(l);
    assert Strip(s) == l[..k] == s[a..a + k];
    if Contains(Strip(s), p) {
      var i := Find(Strip(s), p).value;
      assert MatchAt(s[a..a + k], p, i);
      SubSlice(s, a, a + k, i, i + |p|);
      assert MatchAt(s, p, a + i);
      assert Find(s, p).Some?;
    }
  }

  lemma SubSlice(s: string, a: nat, b: nat, i: nat, j: nat)
    requires a <= b <= |s| && i <= j <= b - a
    ensures s[a..b][i..j] == s[a + i..a + j]
  {
    assert forall m :: 0 <= m < j - i ==> s[a..b][i..j][m] == s[a + i..a + j][m];
  }

  /** An occurrence of the separator cannot cover a line break. */
  lemma NoSepOverBreak(sep: string, s: string, i: int, j: int)
    requires Separator(sep)
    requires 0 <= j < |s| && MatchAt(s, sep, i)
    ensures s[j] == '\n' ==> !(i <= j < i + |sep|)
  {
    assert i <= j < i + |sep| ==> s[j] == s[i..i + |sep|][j - i];
  }

  /** The text between two separators of a serialized log. */
  function Piece(e: string, last: bool): string {
    "\n\n" + e + (if last then "" else "\n\n\n\n")
  }

  /** A piece followed by a separator holds no separator of its own: a
      match would have to lie inside the entry or cover a line break. */
  lemma PieceClean(sep: string, e: string, b: string)
    requires Separator(sep) && !Contains(e, sep)
    ensures forall i :: 0 <= i < |Piece(e, false)| ==> !MatchAt(Piece(e, false) + sep + b, sep, i)
  {
    var a := Piece(e, false);
    var s := a + sep + b;
    forall i | 0 <= i < |a| && MatchAt(s, sep, i) ensures MatchAt(e, sep, i - 2) {
      NoSepOverBreak(sep, s, i, i);
      NoSepOverBreak(sep, s, i, 2 + |e|);
      assert s[2 + |e|] == '\n';
      assert s[i..i + |sep|] == e[i - 2..i - 2 + |sep|];
    }
  }

  /** The last piece holds no separator. */
  lemma LastPieceClean(sep: string, e: string)
    requires Separator(sep) && !Contains(e, sep)
    ensures !Contains(Piece(e, true), sep)
  {
    var s := Piece(e, true);
    forall i | MatchAt(s, sep, i) ensures MatchAt(e, sep, i - 2) {
      NoSepOverBreak(sep, s, i, i);
      assert s[i..i + |sep|] == e[i - 2..i - 2 + |sep|];
    }
  }

  /** The pieces between the separators of `Serialize(sep, es)`. */
  function Pieces(es: seq<string>): seq<string>
    decreases |es|
  {
    if es == [] then [] else [Piece(Strip(es[0]), |es| == 1)] + Pieces(es[1..])
  }

  /** Splitting a serialized log at its separators gives an empty first
      piece and then one piece per entry. */
  lemma {:induction false} SerializeSplits(sep: string, es: seq<string>)
    requires Separator(sep)
    requires es != [] && forall i :: 0 <= i < |es| ==> !Contains(Strip(es[i]), sep)
    ensures SplitOn(Serialize(sep, es), sep) == [""] + Pieces(es)
    decreases |es|
  {
    if |es| == 1 {
      SplitsLast(sep, es[0]);
      assert es == [es[0]];
    } else {
      var rest := es[1..];
      assert forall i :: 0 <= i < |rest| ==> rest[i] == es[i + 1];
      SerializeSplits(sep, rest);
      SplitsNext(sep, es);
    }
  }

  lemma SplitsLast(sep: string, e: string)
    requires Separator(sep) && !Contains(Strip(e), sep)
    ensures SplitOn(Serialize(sep, [e]), sep) == [""] + Pieces([e])
  {
    var a := Piece(Strip(e), true);
    assert Serialize(sep, [e]) == "" + sep + a;
    SplitOnAt("", sep, a);
    LastPieceClean(sep, Strip(e));
    SplitOnNone(a, sep);
    assert Pieces([e]) == [a];
  }

  /** One more entry in front adds one piece in front. */
  lemma SplitsNext(sep: string, es: seq<string>)
    requires Separator(sep) && |es| >= 2 && !Contains(Strip(es[0]), sep)
    requires SplitOn(Serialize(sep, es[1..]), sep) == [""] + Pieces(es[1..])
    ensures SplitOn(Serialize(sep, es), sep) == [""] + Pieces(es)
  {
    var tail := Serialize(sep, es[1..]);
    var b := tail[|sep|..];
    var a := Piece(Strip(es[0]), false);
    SerializeLayout(sep, es);
    PieceClean(sep, Strip(es[0]), b);
    SplitsCons(sep, Serialize(sep, es), tail, a, b, Pieces(es[1..]));
    assert Pieces(es) == [a] + Pieces(es[1..]);
  }

  /** Splitting `sep + a + sep + b` where `a` holds no separator. */
  lemma SplitsCons(sep: string, s: string, tail: string, a: string, b: string, ps: seq<string>)
    requires sep != [] && forall i :: 0 <= i < |a| ==> !MatchAt(a + sep + b, sep, i)
    requires s == "" + sep + (a + sep + b) && |tail| >= |sep| && tail[..|sep|] == sep && b == tail[|sep|..]
    requires SplitOn(tail, sep) == [""] + ps
    ensures SplitOn(s, sep) == [""] + ([a] + ps)
  {
    assert tail == sep + b;
    AfterFirstSep(sep, b, ps);
    SplitOnAt(a, sep, b);
    SplitOnAt("", sep, a + sep + b);
  }

  /** The text after a leading separator splits into the remaining pieces. */
  lemma AfterFirstSep(sep: string, b: string, ps: seq<string>)
    requires sep != [] && SplitOn(sep + b, sep) == [""] + ps
    ensures SplitOn(b, sep) == ps
  {
    assert "" + sep + b == sep + b;
    SplitOnAt("", sep, b);
    ConsCancel("", SplitOn(b, sep), ps);
  }

  lemma ConsCancel<T>(x: T, a: seq<T>, b: seq<T>)
    requires [x] + a == [x] + b
    ensures a == b
  {
    assert a == ([x] + a)[1..];
    assert b == ([x] + b)[1..];
  }

  /** The first entry's piece sits between the first two separators. */
  lemma SerializeLayout(sep: string, es: seq<string>)
    requires |es| >= 2
    ensures Serialize(sep, es)
            == "" + sep + (Piece(Strip(es[0]), false) + sep + Serialize(sep, es[1..])[|sep|..])
  {
    var tail := Serialize(sep, es[1..]);
    var e := Strip(es[0]);
    assert Serialize(sep, es) == sep + "\n\n" + e + "\n\n\n\n" + tail;
    Layout(sep, "\n\n", e, "\n\n\n\n", tail);
  }

  lemma Layout(x: string, y: string, z: string, w: string, t: string)
    requires |t| >= |x| && t[..|x|] == x
    ensures x + y + z + w + t == "" + x + ((y + z + w) + x + t[|x|..])
  {
    assert t == x + t[|x|..];
  }

  /** Each piece trims back to its entry. */
  lemma {:induction false} KeepPieces(sep: string, es: seq<string>)
    requires sep != []
    ensures Keep(sep, Pieces(es)) == Cleaned(es)
    decreases |es|
  {
    if es != [] {
      var e := Strip(es[0]);
      var last := |es| == 1;
      var ws := if last then "" else "\n\n\n\n";
      assert Piece(e, last) == "\n\n" + e + ws;
      StripPadded("\n\n", e, ws);
      assert Pieces(es)[1..] == Pieces(es[1..]);
      KeepPieces(sep, es[1..]);
    }
  }

  /** Reading back a written log gives the entries written, trimmed, without
      the empty ones, provided no entry contains the separator. */
  lemma RoundTrip(sep: string, es: seq<string>)
    requires Separator(sep)
    requires forall i :: 0 <= i < |es| ==> !Contains(Strip(es[i]), sep)
    ensures Parse(sep, Serialize(sep, es)) == Cleaned(es)
  {
    if es == [] {
      SplitOnNone("", sep);
    } else {
      SerializeSplits(sep, es);
      var ps := [""] + Pieces(es);
      assert ps[1..] == Pieces(es);
      assert Keep(sep, ps) == Keep(sep, Pieces(es));
      KeepPieces(sep, es);
    }
  }

  /** Entries the log already holds are kept as they are. */
  lemma {:induction false} CleanedTidy(sep: string, es: seq<string>)
    requires sep != [] && forall i :: 0 <= i < |es| ==> Tidy(sep, es[i])
    ensures Cleaned(es) == es
    decreases |es|
  {
    if es != [] {
      assert forall i :: 0 <= i < |es| - 1 ==> es[1..][i] == es[i + 1];
      CleanedTidy(sep, es[1..]);
    }
  }

  /** The entries the log holds after an append: the previous ones plus the
      new script, cut by `max` as Python slicing does. */
  lemma AppendReadBack(content: string, log: Option<string>, max: int)
    requires Tidy(Sep, Strip(content))
    ensures Parse(Sep, Append(Some(content), log, max).value) == PyTail(Previous(log) + [Strip(content)], max)
  {
    SepIsSeparator();
    var kept := PyTail(Previous(log) + [Strip(content)], max);
    TidySuffix(Previous(log) + [Strip(content)], max);
    TidyReadBack(Sep, kept);
  }

  /** A suffix of tidy entries is tidy. */
  lemma TidySuffix(all: seq<string>, max: int)
    requires forall i :: 0 <= i < |all| - 1 ==> Tidy(Sep, all[i])
    requires all != [] && Tidy(Sep, all[|all| - 1])
    ensures forall i :: 0 <= i < |PyTail(all, max)| ==> Tidy(Sep, PyTail(all, max)[i])
  {
    assert forall i :: 0 <= i < |all| ==> Tidy(Sep, all[i]);
  }

  /** Tidy entries are read back exactly as written. */
  lemma TidyReadBack(sep: string, es: seq<string>)
    requires Separator(sep) && forall i :: 0 <= i < |es| ==> Tidy(sep, es[i])
    ensures Parse(sep, Serialize(sep, es)) == es
  {
    forall i | 0 <= i < |es| ensures !Contains(Strip(es[i]), sep) {
      assert Strip(es[i]) == es[i];
    }
    RoundTrip(sep, es);
    CleanedTidy(sep, es);
  }

  /** Trimming and dropping empties distributes over concatenation. */
  lemma {:induction false} CleanedAppend(a: seq<string>, b: seq<string>)
    ensures Cleaned(a + b) == Cleaned(a) + Cleaned(b)
    decreases |a|
  {
    if a == [] {
      assert a + b == b;
    } else {
      assert (a + b)[1..] == a[1..] + b;
      CleanedAppend(a[1..], b);
    }
  }

  /** The entries after an append for any script without the separator,
      including one that is empty once trimmed: the previous ones plus the
      new script are cut by `max` first, and an empty script is then lost
      on the read. */
  lemma AppendReadBackAny(content: string, log: Option<string>, max: int)
    requires !Contains(Strip(content), Sep)
    ensures Parse(Sep, Append(Some(content), log, max).value)
            == Cleaned(PyTail(Previous(log) + [Strip(content)], max))
  {
    SepIsSeparator();
    var all := Previous(log) + [Strip(content)];
    StripStripped(Strip(content));
    SnocSeparatorFree(Previous(log), Strip(content));
    SuffixSeparatorFree(all, max);
    RoundTrip(Sep, PyTail(all, max));
  }

  /** Tidy entries and one more without the separator: none holds it once trimmed. */
  lemma SnocSeparatorFree(prev: seq<string>, e: string)
    requires forall i :: 0 <= i < |prev| ==> Tidy(Sep, prev[i])
    requires !Contains(Strip(e), Sep)
    ensures var all := prev + [e]; forall i :: 0 <= i < |all| ==> !Contains(Strip(all[i]), Sep)
  {
    var all := prev + [e];
    forall i | 0 <= i < |all| ensures !Contains(Strip(all[i]), Sep) {
      if i < |prev| {
        assert all[i] == prev[i];
        StripStripped(all[i]);
      } else {
        assert all[i] == e;
      }
    }
  }

  /** A slice of separator-free entries is separator-free. */
  lemma SuffixSeparatorFree(all: seq<string>, max: int)
    requires forall i :: 0 <= i < |all| ==> !Contains(Strip(all[i]), Sep)
    ensures var kept := PyTail(all, max); forall i :: 0 <= i < |kept| ==> !Contains(Strip(kept[i]), Sep)
  {
    var kept := PyTail(all, max);
    forall i | 0 <= i < |kept| ensures !Contains(Strip(kept[i]), Sep) {
      assert kept[i] == all[|all| - |kept| + i];
    }
  }

  /** Tidy entries followed by an empty one, cut to the last three and
      cleaned: the empty one goes, and so does the oldest of three. */
  lemma EmptyLastCleaned(prev: seq<string>, e: string)
    requires forall i :: 0 <= i < |prev| ==> Tidy(Sep, prev[i])
    requires Strip(e) == []
    ensures var es := Cleaned(PyTail(prev + [e], 3));
            (|prev| >= 3 ==> es == prev[|prev| - 2..]) && (|prev| < 3 ==> es == prev)
  {
    var kept := PyTail(prev + [e], 3);
    var front := kept[..|kept| - 1];
    assert kept == front + [e];
    assert front == prev[|prev| - (|kept| - 1)..];
    CleanedAppend(front, [e]);
    assert Cleaned([e]) == [] by { assert [e][1..] == []; }
    assert forall i :: 0 <= i < |front| ==> Tidy(Sep, front[i]) by {
      forall i | 0 <= i < |front| ensures Tidy(Sep, front[i]) {
        assert front[i] == prev[|prev| - (|kept| - 1) + i];
      }
    }
    CleanedTidy(Sep, front);
    assert front + [] == front;
  }

  /** An empty script (an empty fenced reply saves one) still takes a place
      in the slice: with the default bound it pushes out the oldest entry
      kept, and is itself dropped on the read, so the log loses an entry. */
  lemma EmptyScriptEvicts(content: string, log: Option<string>)
    requires Strip(content) == []
    ensures var prev := Previous(log);
            var es := Parse(Sep, Append(Some(content), log, 3).value);
            (|prev| >= 3 ==> es == prev[|prev| - 2..]) && (|prev| < 3 ==> es == prev)
  {
    var e := Strip(content);
    assert !Contains(e, Sep) by { assert Find(e, Sep).None?; }
    PreviousTidy(log);
    AppendReadBackAny(content, log, 3);
    EmptyLastCleaned(Previous(log), e);
  }

  lemma PreviousTidy(log: Option<string>)
    ensures forall i :: 0 <= i < |Previous(log)| ==> Tidy(Sep, Previous(log)[i])
  {
    if log.Some? { assert Previous(log) == Parse(Sep, log.value); }
  }

  /** With the default bound the log holds at most three scripts, the newest
      last, preceded by the most recent earlier ones in order. */
  lemma AppendKeepsNewest(content: string, log: Option<string>)
    requires Tidy(Sep, Strip(content))
    ensures var es := Parse(Sep, Append(Some(content), log, 3).value);
            var prev := Previous(log);
            1 <= |es| <= 3 && |es| <= |prev| + 1 && es[|es| - 1] == Strip(content)
            && es[..|es| - 1] == prev[|prev| - (|es| - 1)..]
            && (|prev| < 3 ==> |es| == |prev| + 1)
  {
    AppendReadBack(content, log, 3);
    var prev := Previous(log);
    var all := prev + [Strip(content)];
    var es := PyTail(all, 3);
    assert es == all[|all| - |es|..];
    assert es[..|es| - 1] == prev[|prev| - (|es| - 1)..];
  }

  /** A bound of zero keeps every script: `entries[-0:]` is the whole list. */
  lemma ZeroBoundKeepsAll(content: string, log: Option<string>)
    requires Tidy(Sep, Strip(content))
    ensures Parse(Sep, Append(Some(content), log, 0).value) == Previous(log) + [Strip(content)]
  {
    AppendReadBack(content, log, 0);
  }
}
