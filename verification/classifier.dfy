/**
 Result classification: Kachaka's `judge_result`, which turns the text of a
 command result into a verdict and the state change it implies, and Akari's
 MQTT result handler, which turns a payload into a completion signal. The
 Akari face-display lookup tables live here too.

 The safety and interrupt error-code sets come from the robot configuration
 and are parameters throughout.
 */
module Classifier {
  import opened Wrappers
  import opened PyStr
  import opened Controller

  // ---------------------------------------------------------------------------
  // Kachaka: judge_result
  // ---------------------------------------------------------------------------

  datatype Verdict =
    | Interrupted              // an interrupt code: ignored
    | SafetyHold               // a safety code: pause and keep the task
    | Fatal(code: Option<int>) // any other error: raised; `None` when no code could be read
    | Succeeded
    | TimedOut                 // pause and keep the task, like a safety code
    | Unclassified             // only logged

  /** Case-insensitive `word in resp`. */
  predicate Mentions(resp: string, word: string) {
    Contains(Lower(resp), word)
  }

  /** The error code as `judge_result` reads it: the second whitespace
      separated token, as a decimal integer. */
  function ReportedCode(resp: string): Option<int> {
    var ws := Split(resp);
    if |ws| < 2 then None else ParseInt(ws[1])
  }

  /** The verdict `judge_result` means to reach. An error response whose code
      cannot be read is a plain fatal error. */
  function Classify(resp: string, safety: set<int>, interrupt: set<int>): (v: Verdict)
    ensures v.Interrupted? || v.SafetyHold? || v.Fatal? <==> Mentions(resp, "error_code")
    ensures v.Succeeded? <==> !Mentions(resp, "error_code") && Mentions(resp, "success")
    ensures v.TimedOut? <==> !Mentions(resp, "error_code") && !Mentions(resp, "success")
                             && Mentions(resp, "timeout_error")
    ensures v.Interrupted? ==> ReportedCode(resp).Some? && ReportedCode(resp).value in interrupt
    ensures v.SafetyHold? ==> ReportedCode(resp).Some? && ReportedCode(resp).value in safety
                              && ReportedCode(resp).value !in interrupt
    ensures v.Fatal? ==> v.code == ReportedCode(resp)
                         && (v.code.Some? ==> v.code.value !in safety && v.code.value !in interrupt)
  {
    if Mentions(resp, "error_code") then
      match ReportedCode(resp)
      case None => Fatal(None)
      case Some(c) =>
        if c in interrupt then Interrupted
        else if c in safety then SafetyHold
        else Fatal(Some(c))
    else if Mentions(resp, "success") then Succeeded
    else if Mentions(resp, "timeout_error") then TimedOut
    else Unclassified
  }

  datatype Crash = IndexError | UnboundLocal

  datatype Judged = Judged(verdict: Verdict) | Crashed(crash: Crash)

  /** `judge_result` as written: a lone "error_code" token makes
      `split()[1]` raise `IndexError`, and a second token that is not an
      integer has its `ValueError` swallowed, so the following membership
      test reads the never-assigned `error_code`. */
  function JudgeAsWritten(resp: string, safety: set<int>, interrupt: set<int>): Judged {
    if Mentions(resp, "error_code") then
      var ws := Split(resp);
      if |ws| < 2 then Crashed(IndexError)
      else
        match ParseInt(ws[1])
        case None => Crashed(UnboundLocal)
        case Some(c) =>
          if c in interrupt then Judged(Interrupted)
          else if c in safety then Judged(SafetyHold)
          else Judged(Fatal(Some(c)))
    else if Mentions(resp, "success") then Judged(Succeeded)
    else if Mentions(resp, "timeout_error") then Judged(TimedOut)
    else Judged(Unclassified)
  }

  /** The code as written and the intended classifier agree exactly on the
      responses where the former does not crash, and it crashes exactly on the
      error responses whose code cannot be read. */
  lemma AsWrittenDiffersOnlyOnUnreadableCodes(resp: string, safety: set<int>, interrupt: set<int>)
    ensures JudgeAsWritten(resp, safety, interrupt).Crashed?
            <==> Classify(resp, safety, interrupt) == Fatal(None)
    ensures JudgeAsWritten(resp, safety, interrupt).Judged?
            ==> JudgeAsWritten(resp, safety, interrupt).verdict == Classify(resp, safety, interrupt)
  {
  }

  lemma LowerErrorPrefix(rest: string)
    ensures StartsWith(Lower("error_code: " + rest), "error_code")
  {
    var s := "error_code: " + rest;
    assert forall i :: 0 <= i < 10 ==> s[i] == "error_code"[i] && LowerChar(s[i]) == s[i];
    assert Lower(s)[..10] == "error_code";
  }

  lemma ErrorPrefixMentioned(rest: string)
    ensures Mentions("error_code: " + rest, "error_code")
  {
    LowerErrorPrefix(rest);
    StartsWithContains(Lower("error_code: " + rest), "error_code");
  }

  lemma ErrorPrefixTokens(rest: string)
    ensures Split("error_code: " + rest) == ["error_code:"] + Split(rest)
  {
    assert "error_code: " + rest == "error_code:" + [' '] + rest;
    SplitWord("error_code:", ' ', rest);
  }

  /** An error response whose code is not a number: the code as written
      fails with an unbound local instead of the intended "Kachaka Error". */
  lemma UnreadableCodeCrashes(w: string, safety: set<int>, interrupt: set<int>)
    requires w != [] && NoSpace(w) && ParseInt(w).None?
    ensures JudgeAsWritten("error_code: " + w, safety, interrupt) == Crashed(UnboundLocal)
    ensures Classify("error_code: " + w, safety, interrupt) == Fatal(None)
  {
    ErrorPrefixMentioned(w);
    ErrorPrefixTokens(w);
    SplitOneWord(w);
  }

  /** "abc" is such a token. */
  lemma AbcIsNotACode()
    ensures "abc" != [] && NoSpace("abc") && ParseInt("abc").None?
  {
    assert !IsDigit('a');
  }

  /** How the robot reports a failed command: "error_code: <n>" followed by
      nothing or by more whitespace-separated text. */
  function ErrorReport(c: nat, rest: string): string {
    "error_code: " + ShowNat(c) + rest
  }

  /** The first token of `n + rest` is the numeral `n`. */
  lemma NumeralFirst(n: string, rest: string)
    requires n != [] && AllDigits(n)
    requires rest == [] || IsSpace(rest[0])
    ensures |Split(n + rest)| >= 1 && Split(n + rest)[0] == n
  {
    AllDigitsNoSpace(n);
    if rest == [] {
      assert n + rest == n;
      SplitOneWord(n);
    } else {
      assert n + rest == n + [rest[0]] + rest[1..];
      SplitWord(n, rest[0], rest[1..]);
    }
  }

  lemma ErrorReportTokens(c: nat, rest: string)
    requires rest == [] || IsSpace(rest[0])
    ensures Mentions(ErrorReport(c, rest), "error_code")
    ensures ReportedCode(ErrorReport(c, rest)) == Some(c as int)
  {
    var n := ShowNat(c);
    assert ErrorReport(c, rest) == "error_code: " + (n + rest);
    ErrorPrefixMentioned(n + rest);
    ErrorPrefixTokens(n + rest);
    NumeralFirst(n, rest);
    ParseShowNat(c);
  }

  /** A reported code is classified by set membership alone, the interrupt
      set taking precedence over the safety set. */
  lemma ReportedCodeDecides(c: nat, rest: string, safety: set<int>, interrupt: set<int>)
    requires rest == [] || IsSpace(rest[0])
    ensures Classify(ErrorReport(c, rest), safety, interrupt)
            == if c in interrupt then Interrupted
               else if c in safety then SafetyHold
               else Fatal(Some(c as int))
    ensures JudgeAsWritten(ErrorReport(c, rest), safety, interrupt)
            == Judged(Classify(ErrorReport(c, rest), safety, interrupt))
  {
    ErrorReportTokens(c, rest);
  }

  /** The code sets of the robot configuration. */
  const ConfiguredSafety: set<int> := {11005, 11009, 22002}
  const ConfiguredInterrupt: set<int> := {10001}

  /** With the configured sets, the obstacle, no-path and collision codes
      pause, the cancellation code is ignored, and every other code is fatal. */
  lemma ConfiguredCodes(c: nat, rest: string)
    requires rest == [] || IsSpace(rest[0])
    ensures c == 11005 || c == 11009 || c == 22002
            ==> Classify(ErrorReport(c, rest), ConfiguredSafety, ConfiguredInterrupt) == SafetyHold
    ensures c == 10001
            ==> Classify(ErrorReport(c, rest), ConfiguredSafety, ConfiguredInterrupt) == Interrupted
    ensures !(c == 11005 || c == 11009 || c == 22002 || c == 10001)
            ==> Classify(ErrorReport(c, rest), ConfiguredSafety, ConfiguredInterrupt) == Fatal(Some(c as int))
  {
    ReportedCodeDecides(c, rest, ConfiguredSafety, ConfiguredInterrupt);
  }

  const TimeoutWarning := "移動に時間がかかりすぎています。経路を確認してください。"

  /** What `judge_result` does: the new control state, what the robot says,
      and the exception it raises, if any. */
  datatype Judgement = Judgement(state: ControlState, speech: seq<string>, raised: Option<string>)

  /** `judge_result` with the intended total classification; `describe` is
      the robot's error-code catalogue (`get_robot_error_code`). */
  function JudgeResult(s: ControlState, resp: string, safety: set<int>, interrupt: set<int>,
                       describe: map<int, string>): (j: Judgement)
    ensures j.raised.Some? <==> Classify(resp, safety, interrupt).Fatal?
    ensures j.raised.Some? ==> j.raised.value == "Kachaka Error: " + resp && j.state == s
    ensures j.speech != [] ==> |j.speech| == 1
    ensures Classify(resp, safety, interrupt).TimedOut? ==> j.speech == [TimeoutWarning]
    ensures var v := Classify(resp, safety, interrupt);
            v.Fatal? && v.code.Some? && v.code.value in describe ==> j.speech == [describe[v.code.value]]
    ensures var v := Classify(resp, safety, interrupt);
            v.Fatal? && !(v.code.Some? && v.code.value in describe) ==> j.speech == []
    ensures !(Classify(resp, safety, interrupt).Fatal? || Classify(resp, safety, interrupt).TimedOut?)
            ==> j.speech == []
    ensures Classify(resp, safety, interrupt).SafetyHold? || Classify(resp, safety, interrupt).TimedOut?
            ==> j.state == Hold(s)
    ensures !(Classify(resp, safety, interrupt).SafetyHold? || Classify(resp, safety, interrupt).TimedOut?)
            ==> j.state == s
  {
    match Classify(resp, safety, interrupt)
    case Interrupted => Judgement(s, [], None)
    case SafetyHold => Judgement(Hold(s), [], None)
    case Fatal(code) =>
      var said := if code.Some? && code.value in describe then [describe[code.value]] else [];
      Judgement(s, said, Some("Kachaka Error: " + resp))
    case Succeeded => Judgement(s, [], None)
    case TimedOut => Judgement(Hold(s), [TimeoutWarning], None)
    case Unclassified => Judgement(s, [], None)
  }

  /** A timeout pauses exactly like a safety code: same gate, same snapshot;
      only the spoken warning differs. */
  lemma TimeoutHoldsLikeSafety(s: ControlState, timeout: string, c: nat, rest: string,
                               safety: set<int>, interrupt: set<int>, describe: map<int, string>)
    requires Classify(timeout, safety, interrupt) == TimedOut
    requires rest == [] || IsSpace(rest[0])
    requires c in safety && c !in interrupt
    ensures JudgeResult(s, timeout, safety, interrupt, describe).state
            == JudgeResult(s, ErrorReport(c, rest), safety, interrupt, describe).state
    ensures !JudgeResult(s, timeout, safety, interrupt, describe).state.gateOpen
    ensures JudgeResult(s, timeout, safety, interrupt, describe).speech == [TimeoutWarning]
  {
    ReportedCodeDecides(c, rest, safety, interrupt);
  }

  /** A fatal code that the catalogue describes is spoken before raising. */
  lemma FatalCodeIsAnnounced(s: ControlState, c: nat, rest: string,
                             safety: set<int>, interrupt: set<int>, describe: map<int, string>)
    requires rest == [] || IsSpace(rest[0])
    requires c !in safety && c !in interrupt && c in describe
    ensures var j := JudgeResult(s, ErrorReport(c, rest), safety, interrupt, describe);
            j.speech == [describe[c]] && j.raised == Some("Kachaka Error: " + ErrorReport(c, rest))
  {
    ReportedCodeDecides(c, rest, safety, interrupt);
  }

  // ---------------------------------------------------------------------------
  // Kachaka: moving_timeout
  // ---------------------------------------------------------------------------

  /** Seconds allowed for a move: 30, plus 5 per metre when a distance is
      known, plus 30 more for a docking action. */
  function MovingTimeout(dist: Option<real>, action: Option<string>): (t: real)
    ensures dist.None? ==> t == 30.0
    ensures dist.Some? && dist.value >= 0.0 ==> t >= 30.0
  {
    match dist
    case None => 30.0
    case Some(d) => 30.0 + d * 5.0 + (if action == Some("docking") then 30.0 else 0.0)
  }

  /** A longer move is never given less time, and docking always adds 30 s. */
  lemma MovingTimeoutMonotone(d1: real, d2: real, action: Option<string>)
    requires d1 <= d2
    ensures MovingTimeout(Some(d1), action) <= MovingTimeout(Some(d2), action)
    ensures MovingTimeout(Some(d1), Some("docking")) == MovingTimeout(Some(d1), None) + 30.0
  {
  }

  // ---------------------------------------------------------------------------
  // Akari: result-topic completion
  // ---------------------------------------------------------------------------

  datatype Report = Completed | Errored | Ignored

  /** How `_on_mqtt_message` reads a payload on the result topic. */
  function ReportOf(payload: string): (r: Report)
    ensures r == Completed <==> payload == "0" || payload == "1" || payload == "4"
    ensures r == Errored <==> payload == "-1" || payload == "2"
  {
    if payload in ["0", "1", "4"] then Completed
    else if payload in ["-1", "2"] then Errored
    else Ignored
  }

  /** The completion event after one message: set by any recognised result,
      whether success or error; left as it was otherwise. */
  function OnResultMessage(resultTopic: string, topic: string, payload: string, done: bool): bool {
    done || (topic == resultTopic && ReportOf(payload) != Ignored)
  }

  /** The completion event after a sequence of (topic, payload) messages. */
  function AfterMessages(resultTopic: string, msgs: seq<(string, string)>, done: bool): bool
    decreases |msgs|
  {
    if msgs == [] then done
    else AfterMessages(resultTopic, msgs[1..], OnResultMessage(resultTopic, msgs[0].0, msgs[0].1, done))
  }

  /** Recognised payloads on the result topic. */
  predicate Signals(resultTopic: string, m: (string, string)) {
    m.0 == resultTopic && ReportOf(m.1) != Ignored
  }

  /** The event ends up set exactly when it was already set or some message
      is a recognised payload on the result topic. */
  lemma {:induction false} CompletionIffSignalled(resultTopic: string, msgs: seq<(string, string)>, done: bool)
    ensures AfterMessages(resultTopic, msgs, done)
            <==> done || exists k :: 0 <= k < |msgs| && Signals(resultTopic, msgs[k])
    decreases |msgs|
  {
    if msgs != [] {
      var d := OnResultMessage(resultTopic, msgs[0].0, msgs[0].1, done);
      CompletionIffSignalled(resultTopic, msgs[1..], d);
      if exists k :: 0 <= k < |msgs| && Signals(resultTopic, msgs[k]) {
        var k :| 0 <= k < |msgs| && Signals(resultTopic, msgs[k]);
        if k > 0 {
          assert msgs[1..][k - 1] == msgs[k];
        }
      }
      if exists k :: 0 <= k < |msgs[1..]| && Signals(resultTopic, msgs[1..][k]) {
        var k :| 0 <= k < |msgs[1..]| && Signals(resultTopic, msgs[1..][k]);
        assert msgs[k + 1] == msgs[1..][k];
      }
    }
  }

  // ---------------------------------------------------------------------------
  // Akari: face display
  // ---------------------------------------------------------------------------

  datatype Color = White | Black | Red | Green | Yellow

  /** The value passed as `state`: a string, or something that is not one. */
  datatype Shown = Text(s: string) | NonText

  /** `_express_emotion`: the display colour for a state. */
  function EmotionColor(state: Shown): Color {
    match state
    case Text("running") => Yellow
    case Text("completed") => Green
    case Text("error") => Red
    case _ => White
  }

  /** `_display_message`: the text and background shown for a state. */
  function DisplayFor(state: Shown): (d: (string, Color))
    ensures state.Text? && state.s !in {"running", "completed", "error"} ==> d == (state.s, Black)
    ensures state.NonText? ==> d == ("", Black)
  {
    match state
    case Text("running") => ("実行中", Yellow)
    case Text("completed") => ("完了", Green)
    case Text("error") => ("エラー", Red)
    case Text(s) => (s, Black)
    case NonText => ("", Black)
  }

  /** For the three named states the message background is the emotion
      colour and the text is never empty; for anything else the background is
      black while the emotion colour falls back to white. */
  lemma DisplayMatchesEmotion(state: Shown)
    ensures state.Text? && state.s in {"running", "completed", "error"}
            ==> DisplayFor(state).1 == EmotionColor(state) && DisplayFor(state).0 != []
    ensures !(state.Text? && state.s in {"running", "completed", "error"})
            ==> DisplayFor(state).1 == Black && EmotionColor(state) == White
  {
  }
}
