/**
 The robot-side dispatcher, `RobotClient`: it receives bus messages, owns the
 single-flight gate (`running_task`, set while idle), starts script runs,
 runs manual commands on one controller and fans interrupts out to both.

 Everything the dispatcher does is described as a list of `Action`s; the ones
 that touch the gate or a controller's interrupt entry points are given a
 meaning on a `Rig`, the gate plus both controllers' control states.
 */
module Dispatcher {
  import opened Wrappers
  import opened PyStr
  import opened Controller

  const CommandTopic := "command/robot1"
  const StatusTopic := "status/robot1"
  const ReturnTopic := "return/robot1"
  const OrderTopic := "order/robot1"

  datatype Action =
    | MarkBusy                                       // running_task.clear()
    | MarkIdle                                       // running_task.set()
    | Invoke(b: Backend, i: Interrupt)               // a controller's interrupt entry point
    | Call(b: Backend, name: string, args: seq<string>) // any other controller method
    | Publish(topic: string, msg: string)
    | Notify(msg: string)                            // send_message_to_akari
    | AwaitIdle                                      // running_task.wait()
    | SpawnInterrupt(command: string)                // create_task(_handle_interrupt_command)
    | SpawnManual(b: Backend, parts: seq<string>)    // create_task(manual_command)
    | StartScript(filename: string)                  // start_robot_task
    | Generate(order: string)                        // task and talk script generation
    | EndLoop                                        // main_loop returns

  /** The single-flight gate and both controllers. */
  datatype Rig = Rig(idle: bool, kachaka: ControlState, akari: ControlState)

  function Controls(r: Rig, b: Backend): ControlState {
    if b == Kachaka then r.kachaka else r.akari
  }

  function WithControls(r: Rig, b: Backend, s: ControlState): Rig {
    if b == Kachaka then r.(kachaka := s) else r.(akari := s)
  }

  /** What an action does to the gate and the controllers. Kachaka's
      `is_command_running()` is taken to answer `commandRunning`; manual
      method bodies are abstract and leave the rig alone. */
  function Apply(r: Rig, a: Action, commandRunning: bool): Rig {
    match a
    case MarkBusy => r.(idle := false)
    case MarkIdle => r.(idle := true)
    case Invoke(b, i) => WithControls(r, b, OnInterrupt(b, Controls(r, b), i, commandRunning).state)
    case _ => r
  }

  function Perform(r: Rig, acts: seq<Action>, commandRunning: bool): Rig
    decreases |acts|
  {
    if acts == [] then r else Perform(Apply(r, acts[0], commandRunning), acts[1..], commandRunning)
  }

  lemma {:induction false} PerformAppend(r: Rig, xs: seq<Action>, ys: seq<Action>, commandRunning: bool)
    ensures Perform(r, xs + ys, commandRunning) == Perform(Perform(r, xs, commandRunning), ys, commandRunning)
    decreases |xs|
  {
    if xs == [] {
      assert xs + ys == ys;
    } else {
      assert (xs + ys)[1..] == xs[1..] + ys;
      PerformAppend(Apply(r, xs[0], commandRunning), xs[1..], ys, commandRunning);
    }
  }

  lemma PerformOne(r: Rig, a: Action, commandRunning: bool)
    ensures Perform(r, [a], commandRunning) == Apply(r, a, commandRunning)
  {
    assert [a][1..] == [];
  }

  lemma PerformFour(r: Rig, a0: Action, a1: Action, a2: Action, a3: Action, commandRunning: bool)
    ensures Perform(r, [a0, a1, a2, a3], commandRunning)
            == Apply(Apply(Apply(Apply(r, a0, commandRunning), a1, commandRunning), a2, commandRunning), a3, commandRunning)
  {
    var r1 := Apply(r, a0, commandRunning);
    var r2 := Apply(r1, a1, commandRunning);
    var r3 := Apply(r2, a2, commandRunning);
    assert [a0, a1, a2, a3][1..] == [a1, a2, a3];
    assert [a1, a2, a3][1..] == [a2, a3];
    assert [a2, a3][1..] == [a3];
    assert Perform(r, [a0, a1, a2, a3], commandRunning) == Perform(r1, [a1, a2, a3], commandRunning);
    assert Perform(r1, [a1, a2, a3], commandRunning) == Perform(r2, [a2, a3], commandRunning);
    assert Perform(r2, [a2, a3], commandRunning) == Perform(r3, [a3], commandRunning);
    PerformOne(r3, a3, commandRunning);
  }

  /** A controller ready for new work: not stopped, gate open, nothing
      current and nothing saved. */
  predicate Rearmed(s: ControlState) {
    !s.stopped && s.gateOpen && s.current.None? && s.pending.None?
  }

  // ---------------------------------------------------------------------------
  // start_robot_task
  // ---------------------------------------------------------------------------

  /** A bare file name is looked up in `_robot_programs`; a name with a
      directory part is kept. */
  function ResolvePath(filename: string): string {
    if '/' in filename then filename else "_robot_programs/" + filename
  }

  /** A resolved path always has a directory part, so resolving it again
      changes nothing. */
  lemma ResolvePathSettles(filename: string)
    ensures '/' in ResolvePath(filename)
    ensures ResolvePath(ResolvePath(filename)) == ResolvePath(filename)
    ensures '/' !in filename ==> ResolvePath(filename) == "_robot_programs/" + filename
    ensures '/' in filename ==> ResolvePath(filename) == filename
  {
    if '/' !in filename {
      assert ("_robot_programs/" + filename)[15] == '/';
    }
  }

  datatype Start = Busy | Missing(path: string) | Scheduled(path: string)

  /** `start_robot_task`: rejected while busy, rejected when the resolved file
      does not exist (`files` stands for `os.path.isfile`), otherwise the run
      is scheduled. Neither rejection touches the gate. */
  function StartTask(idle: bool, filename: string, files: set<string>): (r: Start)
    ensures r.Busy? <==> !idle
    ensures !r.Busy? ==> r.path == ResolvePath(filename)
    ensures r.Scheduled? <==> idle && ResolvePath(filename) in files
  {
    if !idle then Busy
    else
      var path := ResolvePath(filename);
      if path in files then Scheduled(path) else Missing(path)
  }

  // ---------------------------------------------------------------------------
  // Script wrapping
  // ---------------------------------------------------------------------------

  const Header := "async def _main(a,b):"

  function Indent(lines: seq<string>): (r: seq<string>)
    ensures |r| == |lines| && forall i :: 0 <= i < |lines| ==> r[i] == "    " + lines[i]
  {
    seq(|lines|, i requires 0 <= i < |lines| => "    " + lines[i])
  }

  /** The script body turned into the coroutine `_main(a, b)`. */
  function Wrap(code: string): string {
    Header + "\n" + Join("\n", Indent(SplitLines(code)))
  }

  /** Remove a four-character indentation. */
  function Dedent(lines: seq<string>): (r: seq<string>)
    ensures |r| == |lines|
  {
    seq(|lines|, i requires 0 <= i < |lines| => if |lines[i]| >= 4 then lines[i][4..] else lines[i])
  }

  lemma HeaderHasNoBreak()
    ensures NoLineBreak(Header)
  {
    assert forall i :: 0 <= i < |Header| ==> ' ' <= Header[i] <= '~';
  }

  /** The wrapped script, read back as lines, is the header followed by every
      source line indented by exactly four spaces, in order and with none
      added or lost; removing the indentation gives the source lines back. */
  lemma WrapLayout(code: string)
    ensures var ls := SplitLines(Wrap(code));
            var src := SplitLines(code);
            |ls| == |src| + 1 && ls[0] == Header
            && (forall i :: 0 <= i < |src| ==> ls[i + 1] == "    " + src[i])
            && Dedent(ls[1..]) == src
  {
    var src := SplitLines(code);
    var ind := Indent(src);
    forall i | 0 <= i < |ind|
      ensures ind[i] != [] && NoLineBreak(ind[i])
    {
      assert ind[i] == "    " + src[i];
      assert forall j :: 0 <= j < |ind[i]| ==> ind[i][j] == ' ' || ind[i][j] == src[i][j - 4];
    }
    SplitLinesJoin(ind);
    HeaderHasNoBreak();
    SplitLinesCons(Header, Join("\n", ind));
    var ls := SplitLines(Wrap(code));
    assert ls == [Header] + ind;
    assert ls[1..] == ind;
    forall i | 0 <= i < |src|
      ensures Dedent(ind)[i] == src[i]
    {
      assert ind[i] == "    " + src[i];
      assert ind[i][4..] == src[i];
    }
  }

  // ---------------------------------------------------------------------------
  // running_robots_task: gate bracket and cleanup
  // ---------------------------------------------------------------------------

  /** How the wrapped script ended: returned, cancelled, or raised. */
  datatype RunEnd = ScriptReturned | ScriptCancelled | ScriptFailed

  /** The gate and controller actions of a run. With a missing client the
      run does nothing; otherwise it holds the gate, stops both controllers
      after an error, and always resets both before releasing the gate. */
  function RunnerActions(clientsReady: bool, end: RunEnd): seq<Action> {
    if !clientsReady then []
    else
      [MarkBusy]
      + (if end == ScriptFailed then [Invoke(Kachaka, Stop), Invoke(Akari, Stop)] else [])
      + [Invoke(Kachaka, Reset), Invoke(Akari, Reset), MarkIdle]
  }

  lemma ResetBoth(r: Rig, commandRunning: bool)
    ensures var r' := Perform(r, [Invoke(Kachaka, Reset), Invoke(Akari, Reset), MarkIdle], commandRunning);
            r'.idle && Rearmed(r'.kachaka) && Rearmed(r'.akari)
  {
    var a := [Invoke(Kachaka, Reset), Invoke(Akari, Reset), MarkIdle];
    var r1 := Apply(r, a[0], commandRunning);
    var r2 := Apply(r1, a[1], commandRunning);
    assert a[1..] == [a[1], a[2]];
    assert [a[1], a[2]][1..] == [a[2]];
    PerformOne(r2, a[2], commandRunning);
  }

  /** Whatever the script did, a run leaves the gate idle and both
      controllers re-armed, and it calls `stop` on both only after an error;
      without clients it changes nothing. */
  lemma RunnerCleansUp(r: Rig, end: RunEnd, commandRunning: bool)
    ensures var r' := Perform(r, RunnerActions(true, end), commandRunning);
            r'.idle && Rearmed(r'.kachaka) && Rearmed(r'.akari)
    ensures Perform(r, RunnerActions(false, end), commandRunning) == r
    ensures Invoke(Kachaka, Stop) in RunnerActions(true, end) <==> end == ScriptFailed
    ensures Invoke(Akari, Stop) in RunnerActions(true, end) <==> end == ScriptFailed
  {
    var tail := [Invoke(Kachaka, Reset), Invoke(Akari, Reset), MarkIdle];
    var head := [MarkBusy] + (if end == ScriptFailed then [Invoke(Kachaka, Stop), Invoke(Akari, Stop)] else []);
    assert RunnerActions(true, end) == head + tail;
    PerformAppend(r, head, tail, commandRunning);
    ResetBoth(Perform(r, head, commandRunning), commandRunning);
  }

  // ---------------------------------------------------------------------------
  // manual_command
  // ---------------------------------------------------------------------------

  datatype ManualPlan = NoCommand | NoSuchMethod(name: string) | Invocation(name: string, args: seq<string>)

  /** `manual_command`'s reading of the message words: the first names the
      method; the rest, joined by single spaces, is passed as one argument,
      or no argument when nothing remains. */
  function PlanManual(parts: seq<string>, methods: set<string>): (p: ManualPlan)
    ensures parts == [] <==> p.NoCommand?
    ensures p.NoSuchMethod? <==> parts != [] && parts[0] !in methods
    ensures p.Invocation? ==> p.name == parts[0] && p.name in methods && |p.args| <= 1
  {
    if parts == [] then NoCommand
    else if parts[0] !in methods then NoSuchMethod(parts[0])
    else
      var a := Join(" ", parts[1..]);
      Invocation(parts[0], if a == "" then [] else [a])
  }

  lemma {:induction false} JoinWordsEmpty(ws: seq<string>)
    requires forall i :: 0 <= i < |ws| ==> ws[i] != []
    ensures Join(" ", ws) == "" <==> ws == []
    decreases |ws|
  {
    if |ws| > 1 {
      assert |Join(" ", ws)| >= |ws[0]|;
    }
  }

  /** For words that came from `split()`, the single argument splits back
      into exactly the words after the method name, and there is no argument
      exactly when there were no such words. */
  lemma ManualArgumentResplits(parts: seq<string>, methods: set<string>)
    requires forall i :: 0 <= i < |parts| ==> parts[i] != [] && NoSpace(parts[i])
    requires parts != [] && parts[0] in methods
    ensures var p := PlanManual(parts, methods);
            (p.args == [] <==> |parts| == 1)
            && (p.args != [] ==> Split(p.args[0]) == parts[1..])
  {
    var rest := parts[1..];
    assert forall i :: 0 <= i < |rest| ==> rest[i] == parts[i + 1];
    JoinWordsEmpty(rest);
    SplitJoin(rest);
  }

  /** The actions of a manual command: for a known method, take the gate,
      call it, reset both controllers unless it raised, and release the gate
      in any case. */
  function ManualActions(b: Backend, p: ManualPlan, raised: bool): seq<Action> {
    match p
    case Invocation(name, args) =>
      [MarkBusy, Call(b, name, args)]
      + (if raised then [] else [Invoke(Kachaka, Reset), Invoke(Akari, Reset)])
      + [MarkIdle]
    case _ => []
  }

  /** A known method always ends with the gate released, and with both
      controllers re-armed when it did not raise; an empty or unknown
      command leaves the gate and the controllers untouched. */
  lemma ManualReleasesGate(r: Rig, b: Backend, p: ManualPlan, raised: bool, commandRunning: bool)
    ensures p.Invocation? ==> Perform(r, ManualActions(b, p, raised), commandRunning).idle
    ensures p.Invocation? && !raised ==>
              var r' := Perform(r, ManualActions(b, p, raised), commandRunning);
              Rearmed(r'.kachaka) && Rearmed(r'.akari)
    ensures !p.Invocation? ==> Perform(r, ManualActions(b, p, raised), commandRunning) == r
  {
    if p.Invocation? {
      var call := [MarkBusy, Call(b, p.name, p.args)];
      var r1 := Perform(r, call, commandRunning);
      assert call[1..] == [call[1]];
      PerformOne(r.(idle := false), call[1], commandRunning);
      if raised {
        assert ManualActions(b, p, raised) == call + [MarkIdle];
        PerformAppend(r, call, [MarkIdle], commandRunning);
        PerformOne(r1, MarkIdle, commandRunning);
      } else {
        assert ManualActions(b, p, raised) == call + [Invoke(Kachaka, Reset), Invoke(Akari, Reset), MarkIdle];
        PerformAppend(r, call, [Invoke(Kachaka, Reset), Invoke(Akari, Reset), MarkIdle], commandRunning);
        ResetBoth(r1, commandRunning);
      }
    }
  }

  // ---------------------------------------------------------------------------
  // Interrupt fan-out
  // ---------------------------------------------------------------------------

  /** The interrupt entry point a lower-case method name denotes. */
  function InterruptNamed(name: string): Option<Interrupt> {
    match name
    case "stop" => Some(Stop)
    case "pause" => Some(Pause)
    case "resume" => Some(Resume)
    case "skip" => Some(Skip)
    case "reset" => Some(Reset)
    case _ => None
  }

  function InvokeNamed(b: Backend, name: string): Action {
    if InterruptNamed(name).Some? then Invoke(b, InterruptNamed(name).value) else Call(b, name, [])
  }

  function Announce(b: Backend, command: string): Action {
    Publish(ReturnTopic, "🛑 " + (if b == Kachaka then "kachaka" else "akari") + ": " + command + "を実行")
  }

  /** `_handle_interrupt_command`: call the method named by the lower-cased
      command on Kachaka, then on Akari, announcing each call; a controller
      without such a method is skipped. */
  function FanOut(command: string, kachakaMethods: set<string>, akariMethods: set<string>): seq<Action> {
    var name := Lower(command);
    (if name in kachakaMethods then [InvokeNamed(Kachaka, name), Announce(Kachaka, command)] else [])
    + (if name in akariMethods then [InvokeNamed(Akari, name), Announce(Akari, command)] else [])
  }

  /** The five interrupt words the dispatcher accepts. */
  function InterruptWord(i: Interrupt): string {
    match i
    case Stop => "STOP"
    case Pause => "PAUSE"
    case Resume => "RESUME"
    case Skip => "SKIP"
    case Reset => "RESET"
  }

  lemma InterruptWordLowered(i: Interrupt)
    ensures InterruptNamed(Lower(InterruptWord(i))) == Some(i)
  {
    var w := InterruptWord(i);
    var l := Lower(w);
    assert forall k :: 0 <= k < |w| ==> l[k] == LowerChar(w[k]);
    match i
    case Stop => assert l == "stop";
    case Pause => assert l == "pause";
    case Resume => assert l == "resume";
    case Skip => assert l == "skip";
    case Reset => assert l == "reset";
  }

  /** An interrupt word reaches both controllers' entry point of that name,
      Kachaka first, each call announced on the return topic. */
  lemma FanOutReachesBoth(i: Interrupt, kachakaMethods: set<string>, akariMethods: set<string>)
    requires Lower(InterruptWord(i)) in kachakaMethods && Lower(InterruptWord(i)) in akariMethods
    ensures FanOut(InterruptWord(i), kachakaMethods, akariMethods)
            == [Invoke(Kachaka, i), Announce(Kachaka, InterruptWord(i)),
                Invoke(Akari, i), Announce(Akari, InterruptWord(i))]
  {
    InterruptWordLowered(i);
  }

  /** A controller that lacks the method is skipped entirely. */
  lemma FanOutSkipsMissing(command: string, kachakaMethods: set<string>, akariMethods: set<string>)
    ensures Lower(command) !in kachakaMethods ==>
              forall a :: a in FanOut(command, kachakaMethods, akariMethods) ==> a.Invoke? ==> a.b == Akari
    ensures Lower(command) !in akariMethods ==>
              forall a :: a in FanOut(command, kachakaMethods, akariMethods) ==> a.Invoke? ==> a.b == Kachaka
  {
  }

  /** Broadcasting STOP halts both controllers: each is stopped, with its
      gate open and its snapshot discarded; the dispatcher gate is untouched. */
  lemma BroadcastStopHalts(r: Rig, kachakaMethods: set<string>, akariMethods: set<string>, commandRunning: bool)
    requires "stop" in kachakaMethods && "stop" in akariMethods
    ensures var r' := Perform(r, FanOut("STOP", kachakaMethods, akariMethods), commandRunning);
            r'.idle == r.idle
            && r'.kachaka.stopped && r'.kachaka.gateOpen && r'.kachaka.pending.None?
            && r'.akari.stopped && r'.akari.gateOpen && r'.akari.pending.None?
  {
    InterruptWordLowered(Stop);
    FanOutReachesBoth(Stop, kachakaMethods, akariMethods);
    var k, a := Announce(Kachaka, "STOP"), Announce(Akari, "STOP");
    PerformFour(r, Invoke(Kachaka, Stop), k, Invoke(Akari, Stop), a, commandRunning);
  }

  // ---------------------------------------------------------------------------
  // main_loop routing
  // ---------------------------------------------------------------------------

  /** What the dispatcher is configured with: each controller's method names
      and the path of the generated script. */
  datatype Setup = Setup(kachakaMethods: set<string>, akariMethods: set<string>, finalScript: string)

  /** Before a manual command or a new order while busy: stop everything and
      wait until the running script has released the gate. */
  function Preempt(idle: bool, cfg: Setup): seq<Action> {
    if idle then [] else FanOut("STOP", cfg.kachakaMethods, cfg.akariMethods) + [AwaitIdle]
  }

  predicate IsInterruptWord(p: string) {
    p == "STOP" || p == "RESET" || p == "PAUSE" || p == "RESUME" || p == "SKIP"
  }

  /** The loop's reaction to a message other than a START, and the tail of
      the reaction to a START with a file name. */
  function RouteOther(topic: string, payload: string, idle: bool, cfg: Setup): seq<Action> {
    if topic == StatusTopic then
      if payload == "fin" then [Notify("finish")]
      else if payload == "finish" then [EndLoop]
      else []
    else if topic == CommandTopic then
      if StartsWith(payload, "KACHAKA ") then Preempt(idle, cfg) + [SpawnManual(Kachaka, Split(payload)[1..])]
      else if StartsWith(payload, "AKARI ") then Preempt(idle, cfg) + [SpawnManual(Akari, Split(payload)[1..])]
      else if IsInterruptWord(payload) then [SpawnInterrupt(payload)]
      else []
    else if topic == OrderTopic then
      Preempt(idle, cfg)
      + [Generate(payload), Publish(ReturnTopic, "Generated & Starting: " + cfg.finalScript),
         StartScript(cfg.finalScript)]
    else []
  }

  predicate IsStart(topic: string, payload: string) {
    topic == CommandTopic && StartsWith(payload, "START ")
  }

  function StartReply(filename: string): seq<Action> {
    [StartScript(filename), Publish(ReturnTopic, "Task started: " + filename)]
  }

  /** One message of `main_loop` as written. `None` is an exception that
      escapes the loop: a START with no file name indexes past the end of its
      `split()` and ends the dispatcher. */
  function RouteAsWritten(topic: string, payload: string, idle: bool, cfg: Setup): Option<seq<Action>> {
    if IsStart(topic, payload) then
      var ws := Split(payload);
      if |ws| < 2 then None else Some(StartReply(ws[1]))
    else Some(RouteOther(topic, payload, idle, cfg))
  }

  /** One message of `main_loop`, with a START that names no file ignored. */
  function Route(topic: string, payload: string, idle: bool, cfg: Setup): (acts: seq<Action>)
    ensures EndLoop in acts <==> topic == StatusTopic && payload == "finish"
  {
    if IsStart(topic, payload) then
      var ws := Split(payload);
      if |ws| < 2 then [] else StartReply(ws[1])
    else RouteOther(topic, payload, idle, cfg)
  }

  /** Of the routing decisions themselves, the loop as written fails exactly
      on a START without a file name, and otherwise reacts as `Route` does.
      Exceptions raised by the actions it triggers (a controller, the script
      generator, a publish) or by decoding the payload are outside this model. */
  lemma RouteAsWrittenFailsOnlyOnBareStart(topic: string, payload: string, idle: bool, cfg: Setup)
    ensures RouteAsWritten(topic, payload, idle, cfg).None?
            <==> IsStart(topic, payload) && |Split(payload)| < 2
    ensures RouteAsWritten(topic, payload, idle, cfg).Some?
            ==> RouteAsWritten(topic, payload, idle, cfg).value == Route(topic, payload, idle, cfg)
  {
  }

  /** "START " alone, as any bus client may publish it, ends the loop as
      written; with the guard it is ignored. */
  lemma BareStartEndsLoop(idle: bool, cfg: Setup)
    ensures RouteAsWritten(CommandTopic, "START ", idle, cfg).None?
    ensures Route(CommandTopic, "START ", idle, cfg) == []
  {
    var p := "START ";
    assert StartsWith(p, "START ");
    SplitWord("START", ' ', "");
    assert p == "START" + [' '] + "";
    assert Split("") == [];
  }

  lemma PrefixWordsHaveNoSpace()
    ensures NoSpace("START") && NoSpace("KACHAKA") && NoSpace("AKARI")
  {
    assert forall i :: 0 <= i < |"START"| ==> 'A' <= "START"[i] <= 'Z';
    assert forall i :: 0 <= i < |"KACHAKA"| ==> 'A' <= "KACHAKA"[i] <= 'Z';
    assert forall i :: 0 <= i < |"AKARI"| ==> 'A' <= "AKARI"[i] <= 'Z';
  }

  /** A prefixed command: the payload splits into the prefix word followed by
      the words of the argument, of which there is at least one. */
  lemma PrefixedWords(prefix: string, arg: string)
    requires prefix != [] && NoSpace(prefix)
    requires arg != [] && !IsSpace(arg[0])
    ensures Split(prefix + " " + arg) == [prefix] + Split(arg)
    ensures |Split(arg)| >= 1
  {
    assert prefix + " " + arg == prefix + [' '] + arg;
    SplitWord(prefix, ' ', arg);
    SplitWords(arg);
  }

  /** "START <arg>" starts the second word of the payload, the first word of
      the argument, and the loop as written agrees. */
  lemma StartUsesSecondWord(arg: string, idle: bool, cfg: Setup)
    requires arg != [] && !IsSpace(arg[0])
    ensures |Split("START " + arg)| >= 2 && Split("START " + arg)[1] == Split(arg)[0]
    ensures Route(CommandTopic, "START " + arg, idle, cfg) == StartReply(Split(arg)[0])
    ensures RouteAsWritten(CommandTopic, "START " + arg, idle, cfg) == Some(StartReply(Split(arg)[0]))
  {
    var p := "START " + arg;
    assert p[..6] == "START ";
    PrefixWordsHaveNoSpace();
    PrefixedWords("START", arg);
    assert p == "START" + " " + arg;
    assert Split(p) == ["START"] + Split(arg);
    assert |Split(p)| == 1 + |Split(arg)|;
    assert Split(p)[1] == Split(arg)[0];
  }

  /** Interrupt words are spawned as fan-outs whether or not a script runs. */
  lemma InterruptsIgnoreGate(i: Interrupt, cfg: Setup)
    ensures Route(CommandTopic, InterruptWord(i), true, cfg) == [SpawnInterrupt(InterruptWord(i))]
    ensures Route(CommandTopic, InterruptWord(i), false, cfg) == [SpawnInterrupt(InterruptWord(i))]
  {
    var w := InterruptWord(i);
    if i == Resume {
      assert w[0] == 'R';
      assert "START "[0] == 'S' && "AKARI "[0] == 'A';
    } else {
      assert |w| < 6;
    }
    assert !StartsWith(w, "START ") && !StartsWith(w, "KACHAKA ") && !StartsWith(w, "AKARI ");
  }

  /** A manual command while a script runs first halts both controllers and
      waits for the gate, then hands the words after the robot name over. */
  lemma ManualPreemptsRun(b: Backend, payload: string, cfg: Setup)
    requires StartsWith(payload, if b == Kachaka then "KACHAKA " else "AKARI ")
    ensures Route(CommandTopic, payload, false, cfg)
            == FanOut("STOP", cfg.kachakaMethods, cfg.akariMethods) + [AwaitIdle, SpawnManual(b, Split(payload)[1..])]
    ensures Route(CommandTopic, payload, true, cfg) == [SpawnManual(b, Split(payload)[1..])]
    ensures RouteAsWritten(CommandTopic, payload, false, cfg) == Some(Route(CommandTopic, payload, false, cfg))
    ensures RouteAsWritten(CommandTopic, payload, true, cfg) == Some(Route(CommandTopic, payload, true, cfg))
  {
    assert payload[0] == (if b == Kachaka then 'K' else 'A');
    assert !StartsWith(payload, "START ");
    if b == Akari {
      assert !StartsWith(payload, "KACHAKA ");
    }
  }

  /** "KACHAKA <arg>" and "AKARI <arg>" hand exactly the words of the
      argument to the manual command. */
  lemma ManualGetsArgumentWords(b: Backend, arg: string, idle: bool, cfg: Setup)
    requires arg != [] && !IsSpace(arg[0])
    ensures var p := (if b == Kachaka then "KACHAKA" else "AKARI") + " " + arg;
            Route(CommandTopic, p, idle, cfg) == Preempt(idle, cfg) + [SpawnManual(b, Split(arg))]
            && RouteAsWritten(CommandTopic, p, idle, cfg) == Some(Route(CommandTopic, p, idle, cfg))
  {
    var prefix := if b == Kachaka then "KACHAKA" else "AKARI";
    var p := prefix + " " + arg;
    var spawn := SpawnManual(b, Split(arg));
    PrefixWordsHaveNoSpace();
    PrefixedWords(prefix, arg);
    assert Split(p)[1..] == Split(arg);
    assert StartsWith(p, if b == Kachaka then "KACHAKA " else "AKARI ") by {
      assert p[..|prefix| + 1] == prefix + " ";
    }
    ManualPreemptsRun(b, p, cfg);
    if idle {
      assert Route(CommandTopic, p, idle, cfg) == [spawn];
      assert Preempt(idle, cfg) + [spawn] == [spawn];
    } else {
      assert Route(CommandTopic, p, idle, cfg) == FanOut("STOP", cfg.kachakaMethods, cfg.akariMethods) + [AwaitIdle, spawn];
      assert Preempt(idle, cfg) + [spawn] == FanOut("STOP", cfg.kachakaMethods, cfg.akariMethods) + [AwaitIdle, spawn];
    }
  }

  // ---------------------------------------------------------------------------
  // Gate ownership across runs
  // ---------------------------------------------------------------------------

  /** The gate, the runs scheduled but not yet begun, and the runs executing. */
  datatype Flight = Flight(idle: bool, scheduled: nat, active: nat)

  const NoRuns := Flight(true, 0, 0)

  datatype FlightEvent =
    | Request(found: bool)     // a START whose resolved file exists or not
    | Begin(clientsReady: bool) // a scheduled runner starts executing
    | Complete                  // an executing runner finishes

  /** As written: START checks the gate but leaves it set; the gate is only
      cleared once the scheduled runner begins. */
  function FlightStepAsWritten(f: Flight, e: FlightEvent): Flight {
    match e
    case Request(found) => if f.idle && found then f.(scheduled := f.scheduled + 1) else f
    case Begin(ready) =>
      if f.scheduled == 0 then f
      else if ready then Flight(false, f.scheduled - 1, f.active + 1)
      else f.(scheduled := f.scheduled - 1)
    case Complete => if f.active == 0 then f else Flight(true, f.scheduled, f.active - 1)
  }

  /** With the gate taken when the run is scheduled, and given back by a
      runner that finds no clients. */
  function FlightStep(f: Flight, e: FlightEvent): Flight {
    match e
    case Request(found) => if f.idle && found then Flight(false, f.scheduled + 1, f.active) else f
    case Begin(ready) =>
      if f.scheduled == 0 then f
      else if ready then Flight(false, f.scheduled - 1, f.active + 1)
      else Flight(true, f.scheduled - 1, f.active)
    case Complete => if f.active == 0 then f else Flight(true, f.scheduled, f.active - 1)
  }

  function RunFlight(f: Flight, es: seq<FlightEvent>): Flight
    decreases |es|
  {
    if es == [] then f else RunFlight(FlightStep(f, es[0]), es[1..])
  }

  /** At most one run is scheduled or executing, and the gate is idle
      exactly when none is. */
  predicate SingleFlight(f: Flight) {
    f.scheduled + f.active <= 1 && (f.idle <==> f.scheduled + f.active == 0)
  }

  lemma FlightStepKeepsSingle(f: Flight, e: FlightEvent)
    requires SingleFlight(f)
    ensures SingleFlight(FlightStep(f, e))
  {
  }

  lemma {:induction false} RunFlightKeepsSingle(f: Flight, es: seq<FlightEvent>)
    requires SingleFlight(f)
    ensures SingleFlight(RunFlight(f, es))
    decreases |es|
  {
    if es != [] {
      FlightStepKeepsSingle(f, es[0]);
      RunFlightKeepsSingle(FlightStep(f, es[0]), es[1..]);
    }
  }

  /** A START while a run is scheduled or executing changes nothing. */
  lemma BusyRequestRejected(f: Flight, found: bool)
    requires SingleFlight(f) && f.scheduled + f.active == 1
    ensures FlightStep(f, Request(found)) == f
  {
  }

  /** Two start requests handled before the first runner begins both pass
      the gate as written, and two scripts end up executing at once. A START
      message cannot open this window by itself (see
      `StartsAloneKeepSingleAsWritten`); an order can, because its start is the
      last step of its branch, so a START already queued behind it is handled
      before the order's runner begins, provided the message iterator hands
      the queued message over without yielding to the runner. */
  lemma DoubleStartAsWritten()
    ensures var f := FlightStepAsWritten(FlightStepAsWritten(NoRuns, Request(true)), Request(true));
            f == Flight(true, 2, 0)
            && FlightStepAsWritten(FlightStepAsWritten(f, Begin(true)), Begin(true)).active == 2
  {
  }

  /** A START message as `main_loop` handles it: the start request, then,
      because the loop awaits a publish before it takes the next message, the
      scheduled runner begins before anything else is handled. */
  function StartMessageAsWritten(f: Flight, found: bool, ready: bool): Flight {
    var g := FlightStepAsWritten(f, Request(found));
    if g.scheduled > f.scheduled then FlightStepAsWritten(g, Begin(ready)) else g
  }

  /** What the as-written gate sees between runs: START messages and the
      completion of the executing script. */
  datatype LoopStep = StartMessage(found: bool, ready: bool) | RunEnds

  function LoopStepAsWritten(f: Flight, l: LoopStep): Flight {
    match l
    case StartMessage(found, ready) => StartMessageAsWritten(f, found, ready)
    case RunEnds => FlightStepAsWritten(f, Complete)
  }

  function RunStartsAsWritten(f: Flight, ls: seq<LoopStep>): Flight
    decreases |ls|
  {
    if ls == [] then f else RunStartsAsWritten(LoopStepAsWritten(f, ls[0]), ls[1..])
  }

  /** No run waits to begin, and the single-run invariant holds. */
  predicate Settled(f: Flight) {
    f.scheduled == 0 && SingleFlight(f)
  }

  lemma LoopStepSettles(f: Flight, l: LoopStep)
    requires Settled(f)
    ensures Settled(LoopStepAsWritten(f, l))
  {
  }

  /** On START messages alone the gate as written keeps one script at a time:
      every scheduled runner takes the gate before the next message. */
  lemma {:induction false} StartsAloneKeepSingleAsWritten(f: Flight, ls: seq<LoopStep>)
    requires Settled(f)
    ensures Settled(RunStartsAsWritten(f, ls))
    decreases |ls|
  {
    if ls != [] {
      LoopStepSettles(f, ls[0]);
      StartsAloneKeepSingleAsWritten(LoopStepAsWritten(f, ls[0]), ls[1..]);
    }
  }

  /** The same messages with the gate taken at scheduling: the second START
      is rejected, one script executes, and the gate is idle once it completes. */
  lemma DoubleStartRejected()
    ensures var f := FlightStep(FlightStep(NoRuns, Request(true)), Request(true));
            var g := FlightStep(FlightStep(f, Begin(true)), Begin(true));
            f == Flight(false, 1, 0) && g == Flight(false, 0, 1) && FlightStep(g, Complete) == NoRuns
  {
  }
}
