/**
 The operator console, `RobotRemoteController._input_loop`: each typed line
 becomes at most one bus message. This is the producer of the formats the
 dispatcher parses, and the lemmas here check the two sides against each
 other.
 */
module Operator {
  import opened Wrappers
  import opened PyStr
  import opened Controller
  import opened Dispatcher

  /** `simple_commands`: the console word and the message it sends. */
  const SimpleCommands: map<string, string> :=
    map["stop" := "STOP", "pause" := "PAUSE", "resume" := "RESUME", "skip" := "SKIP", "reset" := "RESET"]

  datatype Console =
    | Silent                           // nothing published
    | ShowHelp                         // the help text is shown
    | Quit                             // the loop ends
    | Send(topic: string, msg: string) // one message published

  /** One iteration of `_input_loop`. The line is trimmed and split at the
      first whitespace run; the first word, lower-cased, selects the command
      and the remainder (possibly empty) is its argument. */
  function Encode(input: string): (o: Console)
    ensures Strip(input) == [] ==> o == Silent
    ensures o.Send? ==> o.msg != []
    ensures o.Send? && o.topic == StatusTopic ==> o.msg == Strip(input)
    ensures o.Send? ==> o.topic in {CommandTopic, OrderTopic, StatusTopic}
  {
    var line := Strip(input);
    if line == [] then Silent
    else
      match SplitFirst(line)
      case None => Silent
      case Some((word, arg)) => EncodeCommand(line, Lower(word), arg)
  }

  /** The branch `_input_loop` takes for a lower-cased command word `cmd`
      with argument `arg`, on the trimmed line `line`. */
  function EncodeCommand(line: string, cmd: string, arg: string): (o: Console)
    requires line != []
    ensures o.Send? ==> o.msg != []
    ensures o.Send? && o.topic == StatusTopic ==> o.msg == line
    ensures o.Send? ==> o.topic in {CommandTopic, OrderTopic, StatusTopic}
  {
    if cmd in SimpleCommands then Send(CommandTopic, SimpleCommands[cmd])
    else if cmd == "start" then (if arg != [] then Send(CommandTopic, "START " + arg) else Silent)
    else if cmd == "order" then (if arg != [] then Send(OrderTopic, arg) else Silent)
    else if cmd == "kachaka" then (if arg != [] then Send(CommandTopic, "KACHAKA " + arg) else Silent)
    else if cmd == "akari" then (if arg != [] then Send(CommandTopic, "AKARI " + arg) else Silent)
    else if cmd == "help" then ShowHelp
    else if cmd == "exit" then Quit
    else Send(StatusTopic, line)
  }

  lemma EncodeTyped(input: string)
    requires Typed(input).Some?
    ensures Strip(input) != []
    ensures Encode(input) == EncodeCommand(Strip(input), Lower(Typed(input).value.0), Typed(input).value.1)
  {
  }

  /** Surrounding whitespace never matters. */
  lemma EncodeTrims(input: string)
    ensures Encode(Strip(input)) == Encode(input)
  {
    StripStripped(Strip(input));
  }

  /** The console word of an interrupt and the message the dispatcher fans out. */
  lemma SimpleCommandWords(i: Interrupt)
    ensures Lower(InterruptWord(i)) in SimpleCommands
    ensures SimpleCommands[Lower(InterruptWord(i))] == InterruptWord(i)
  {
    InterruptWordLowered(i);
    var l := Lower(InterruptWord(i));
    assert l == "stop" || l == "pause" || l == "resume" || l == "skip" || l == "reset";
  }

  /** The typed line, trimmed and split at its first whitespace run. */
  function Typed(input: string): Option<(string, string)> {
    SplitFirst(Strip(input))
  }

  /** `start <file> ...` makes the dispatcher start the second word typed. */
  lemma TypedStartRuns(input: string, idle: bool, cfg: Setup)
    requires Typed(input).Some? && Lower(Typed(input).value.0) == "start" && Typed(input).value.1 != []
    ensures Encode(input) == Send(CommandTopic, "START " + Typed(input).value.1)
    ensures |Split(Strip(input))| >= 2
    ensures Route(CommandTopic, Encode(input).msg, idle, cfg) == StartReply(Split(Strip(input))[1])
    ensures RouteAsWritten(CommandTopic, Encode(input).msg, idle, cfg).Some?
  {
    var (word, arg) := Typed(input).value;
    EncodeTyped(input);
    assert "start" !in SimpleCommands;
    StartUsesSecondWord(arg, idle, cfg);
    SplitFirstSplit(Strip(input));
  }

  /** The console word and the dispatcher keyword of each robot. */
  function RobotWord(b: Backend): string {
    if b == Kachaka then "kachaka" else "akari"
  }

  function RobotKeyword(b: Backend): string {
    if b == Kachaka then "KACHAKA" else "AKARI"
  }

  lemma ManualEncodes(b: Backend, line: string, arg: string)
    requires line != [] && arg != []
    ensures EncodeCommand(line, RobotWord(b), arg) == Send(CommandTopic, RobotKeyword(b) + " " + arg)
  {
    assert "kachaka" !in SimpleCommands && "akari" !in SimpleCommands;
    if b == Kachaka {
      assert "KACHAKA " + arg == "KACHAKA" + " " + arg;
    } else {
      assert "AKARI " + arg == "AKARI" + " " + arg;
    }
  }

  lemma TypedManualEncodes(b: Backend, input: string)
    requires Typed(input).Some? && Typed(input).value.1 != []
    requires Lower(Typed(input).value.0) == RobotWord(b)
    ensures Encode(input) == Send(CommandTopic, RobotKeyword(b) + " " + Typed(input).value.1)
  {
    EncodeTyped(input);
    ManualEncodes(b, Strip(input), Typed(input).value.1);
  }

  /** `kachaka ...` and `akari ...` hand the words after the robot name to a
      manual command on that robot, after halting a running script. */
  lemma TypedManualRuns(b: Backend, input: string, idle: bool, cfg: Setup)
    requires Typed(input).Some? && Typed(input).value.1 != []
    requires Lower(Typed(input).value.0) == RobotWord(b)
    ensures Encode(input) == Send(CommandTopic, RobotKeyword(b) + " " + Typed(input).value.1)
    ensures Route(CommandTopic, Encode(input).msg, idle, cfg)
            == Preempt(idle, cfg) + [SpawnManual(b, Split(Strip(input))[1..])]
    ensures RouteAsWritten(CommandTopic, Encode(input).msg, idle, cfg).Some?
  {
    var (word, arg) := Typed(input).value;
    TypedManualEncodes(b, input);
    ManualGetsArgumentWords(b, arg, idle, cfg);
    SplitFirstSplit(Strip(input));
  }

  /** An interrupt word, typed in any letter case, is fanned out to both
      controllers whether or not a script runs. */
  lemma TypedInterruptFansOut(i: Interrupt, input: string, idle: bool, cfg: Setup)
    requires Typed(input).Some? && Lower(Typed(input).value.0) == Lower(InterruptWord(i))
    ensures Encode(input) == Send(CommandTopic, InterruptWord(i))
    ensures Route(CommandTopic, InterruptWord(i), idle, cfg) == [SpawnInterrupt(InterruptWord(i))]
    ensures RouteAsWritten(CommandTopic, InterruptWord(i), idle, cfg).Some?
  {
    EncodeTyped(input);
    SimpleCommandWords(i);
    InterruptsIgnoreGate(i, cfg);
    RouteAsWrittenFailsOnlyOnBareStart(CommandTopic, InterruptWord(i), idle, cfg);
  }

  /** `order <text>` asks for a generated script and starts it, after
      halting a running script. */
  lemma TypedOrderGenerates(input: string, idle: bool, cfg: Setup)
    requires Typed(input).Some? && Lower(Typed(input).value.0) == "order" && Typed(input).value.1 != []
    ensures Encode(input) == Send(OrderTopic, Typed(input).value.1)
    ensures RouteAsWritten(OrderTopic, Typed(input).value.1, idle, cfg)
            == Some(Preempt(idle, cfg)
                    + [Generate(Typed(input).value.1), Publish(ReturnTopic, "Generated & Starting: " + cfg.finalScript),
                       StartScript(cfg.finalScript)])
  {
    EncodeTyped(input);
    assert "order" !in SimpleCommands;
  }

  /** Any other word sends the trimmed line on the status topic. */
  lemma TypedOtherIsStatus(input: string)
    requires Typed(input).Some?
    requires Lower(Typed(input).value.0) !in SimpleCommands
    requires Lower(Typed(input).value.0) !in {"start", "order", "kachaka", "akari", "help", "exit"}
    ensures Encode(input) == Send(StatusTopic, Strip(input))
  {
    EncodeTyped(input);
  }

  /** `start`, `order`, `kachaka` and `akari` without an argument only print
      a hint; `help` shows the help and `exit` ends the loop, neither
      publishing anything. */
  lemma CommandWithoutMessage(line: string, cmd: string, arg: string)
    requires line != []
    ensures cmd in {"start", "order", "kachaka", "akari"} && arg == [] ==> EncodeCommand(line, cmd, arg) == Silent
    ensures cmd == "help" ==> EncodeCommand(line, cmd, arg) == ShowHelp
    ensures cmd == "exit" ==> EncodeCommand(line, cmd, arg) == Quit
  {
    assert "start" !in SimpleCommands && "order" !in SimpleCommands;
    assert "kachaka" !in SimpleCommands && "akari" !in SimpleCommands;
    assert "help" !in SimpleCommands && "exit" !in SimpleCommands;
  }

  lemma TypedWithoutMessage(input: string)
    requires Typed(input).Some?
    ensures var (word, arg) := Typed(input).value;
            Lower(word) in {"start", "order", "kachaka", "akari"} && arg == [] ==> Encode(input) == Silent
    ensures Lower(Typed(input).value.0) == "help" ==> Encode(input) == ShowHelp
    ensures Lower(Typed(input).value.0) == "exit" ==> Encode(input) == Quit
  {
    var (word, arg) := Typed(input).value;
    EncodeTyped(input);
    CommandWithoutMessage(Strip(input), Lower(word), arg);
  }

  /** A message whose first letter is not 'S', or which is shorter than
      "START ", is not a START. */
  lemma NotStart(m: string)
    requires |m| < 6 || (m != [] && m[0] != 'S')
    ensures !StartsWith(m, "START ")
  {
    assert "START "[0] == 'S';
  }

  lemma CommandNeverCrashes(line: string, cmd: string, arg: string, idle: bool, cfg: Setup)
    requires line != [] && (arg == [] || !IsSpace(arg[0]))
    requires EncodeCommand(line, cmd, arg).Send?
    ensures var o := EncodeCommand(line, cmd, arg);
            RouteAsWritten(o.topic, o.msg, idle, cfg).Some?
  {
    var o := EncodeCommand(line, cmd, arg);
    var m := o.msg;
    if cmd in SimpleCommands {
      assert IsInterruptWord(m);
      assert |m| < 6 || m[0] == 'R';
      NotStart(m);
      RouteAsWrittenFailsOnlyOnBareStart(CommandTopic, m, idle, cfg);
    } else if cmd == "start" {
      StartUsesSecondWord(arg, idle, cfg);
    } else if o.topic == CommandTopic {
      assert m[0] == 'K' || m[0] == 'A';
      NotStart(m);
      RouteAsWrittenFailsOnlyOnBareStart(CommandTopic, m, idle, cfg);
    } else {
      RouteAsWrittenFailsOnlyOnBareStart(o.topic, m, idle, cfg);
    }
  }

  /** Whatever the operator types, the dispatcher never meets the START that
      crashes it as written. */
  lemma OperatorNeverCrashesDispatcher(input: string, idle: bool, cfg: Setup)
    requires Encode(input).Send?
    ensures RouteAsWritten(Encode(input).topic, Encode(input).msg, idle, cfg).Some?
  {
    var (word, arg) := Typed(input).value;
    EncodeTyped(input);
    CommandNeverCrashes(Strip(input), Lower(word), arg, idle, cfg);
  }

  lemma LowerWord(w: string)
    requires forall k :: 0 <= k < |w| ==> 'a' <= w[k] <= 'z'
    ensures Lower(w) == w && w != [] ==> NoSpace(w)
  {
    assert forall k :: 0 <= k < |w| ==> Lower(w)[k] == w[k];
  }

  /** Typing exactly "finish" shuts the dispatcher down through the status
      topic; typing "fin" tells Akari to finish. */
  lemma StatusWordsReachDispatcher(idle: bool, cfg: Setup)
    ensures Encode("finish") == Send(StatusTopic, "finish")
    ensures RouteAsWritten(StatusTopic, "finish", idle, cfg) == Some([EndLoop])
    ensures Encode("fin") == Send(StatusTopic, "fin")
    ensures RouteAsWritten(StatusTopic, "fin", idle, cfg) == Some([Notify("finish")])
  {
    FinishWord("finish");
    FinishWord("fin");
  }

  lemma FinishWord(w: string)
    requires w == "finish" || w == "fin"
    ensures Encode(w) == Send(StatusTopic, w)
  {
    assert forall k :: 0 <= k < |w| ==> 'a' <= w[k] <= 'z';
    LowerWord(w);
    AllDigitsNoSpace([]);
    assert Stripped(w);
    StripStripped(w);
    SplitFirstOneWord(w);
    assert Typed(w) == Some((w, ""));
    TypedOtherIsStatus(w);
  }
}
