/**
 The interrupt-aware control state that `KachakaModule` and `AkariModule` each
 keep, and one pure transition per event that changes it: a guarded operation
 starting and finishing (`decorated_execution`), a recovery step
 (`handle_pause_and_recovery`), and the interrupt entry points `stop`, `pause`,
 `resume`, `skip` and `reset`.

 The two modules share every branch; they differ only in the backend
 notifications they send, which `Backend` selects. Backend calls and asyncio
 task cancellation are not performed: each transition returns the list of
 effects the source would issue, in the order it issues them.
 */
module Controller {
  import opened Wrappers

  datatype Backend = Kachaka | Akari

  /** A guarded invocation: `(func.__name__, args, kwargs)`. */
  datatype OpRecord = OpRecord(name: string, args: seq<string>, kwargs: map<string, string>)

  /** Identity of the asyncio task that runs a guarded operation. */
  type TaskId = nat

  /** `stop_flag`, `pause_event` (open when set), `current_task`,
      `pending_task` and `running_asyncio_task`. */
  datatype ControlState = ControlState(
    stopped: bool,
    gateOpen: bool,
    current: Option<OpRecord>,
    pending: Option<OpRecord>,
    running: Option<TaskId>)

  /** The state `__init__` establishes. */
  const Fresh := ControlState(false, true, None, None, None)

  datatype Effect =
    | CancelCommand            // Kachaka: `client.cancel_command()`
    | SendToAkari(msg: string) // Akari: a message on the chat topic
    | CancelTask(task: TaskId) // `Task.cancel()` on the running asyncio task

  /** The abort a controller sends its backend on cancellation and on `stop`. */
  function Abort(b: Backend): Effect {
    match b
    case Kachaka => CancelCommand
    case Akari => SendToAkari("stop")
  }

  /** `Task.cancel()` on the running task, if there is one. */
  function CancelRunning(s: ControlState): seq<Effect> {
    if s.running.Some? then [CancelTask(s.running.value)] else []
  }

  // ---------------------------------------------------------------------------
  // Execution guard
  // ---------------------------------------------------------------------------

  datatype Entry = Skipped | Entered(state: ControlState)

  /** Pre-execution phase of `decorated_execution`. */
  function GuardEnter(s: ControlState, op: OpRecord, task: TaskId): (r: Entry)
    ensures r.Skipped? <==> s.stopped
    ensures r.Entered? ==> r.state.current == Some(op) && r.state.running == Some(task)
    ensures r.Entered? ==> r.state.stopped == s.stopped && r.state.gateOpen == s.gateOpen
                           && r.state.pending == s.pending
  {
    if s.stopped then Skipped else Entered(s.(current := Some(op), running := Some(task)))
  }

  /** How the wrapped body ended. */
  datatype BodyExit = Returned | Cancelled | Failed

  /** The state after the `finally`, the effects of the `except` clause, and
      whether the error is re-raised (in which case no recovery runs). */
  datatype Exit = Exit(state: ControlState, effects: seq<Effect>, raises: bool)

  /** Execution and `finally` phases of `decorated_execution`. */
  function GuardLeave(b: Backend, s: ControlState, how: BodyExit): (r: Exit)
    ensures r.state.current.None? && r.state.running.None?
    ensures r.state.stopped == s.stopped && r.state.gateOpen == s.gateOpen
    ensures r.raises <==> how == Failed
    ensures how == Cancelled ==> r.effects == [Abort(b)] && r.state.pending == s.pending
    ensures how == Returned ==> r.effects == [] && r.state.pending == s.pending
    ensures how == Failed ==> r.state.pending.None?
    ensures how == Failed ==> r.effects == (if b == Akari then [SendToAkari("finish")] else [])
  {
    var cleared := s.(current := None, running := None);
    match how
    case Returned => Exit(cleared, [], false)
    case Cancelled => Exit(cleared, [Abort(b)], false)
    case Failed =>
      Exit(cleared.(pending := None), if b == Akari then [SendToAkari("finish")] else [], true)
  }

  // ---------------------------------------------------------------------------
  // Recovery
  // ---------------------------------------------------------------------------

  datatype Recovery =
    | Waiting                 // gate closed: suspended until RESUME
    | Finished                // nothing to replay
    | Replay(op: OpRecord)    // re-invoke the saved operation through the guard
    | Unresolved(name: string) // no method of that name: reported, not retried

  datatype Recovered = Recovered(state: ControlState, outcome: Recovery)

  /** One step of `handle_pause_and_recovery`; `methods` are the names
      `getattr` resolves on the module. */
  function RecoveryStep(s: ControlState, methods: set<string>): (r: Recovered)
    ensures !s.gateOpen ==> r.outcome == Waiting && r.state == s
    ensures s.gateOpen && s.pending.None? ==> r.outcome == Finished && r.state == s
    ensures s.gateOpen && s.pending.Some? ==>
              r.state.pending.None? && r.state.(pending := s.pending) == s
              && (s.pending.value.name in methods ==> r.outcome == Replay(s.pending.value))
              && (s.pending.value.name !in methods ==> r.outcome == Unresolved(s.pending.value.name))
  {
    if !s.gateOpen then Recovered(s, Waiting)
    else if s.pending.None? then Recovered(s, Finished)
    else
      var op := s.pending.value;
      Recovered(s.(pending := None), if op.name in methods then Replay(op) else Unresolved(op.name))
  }

  // ---------------------------------------------------------------------------
  // Interrupt entry points
  // ---------------------------------------------------------------------------

  datatype Interrupt = Stop | Pause | Resume | Skip | Reset

  datatype Reaction = Reaction(state: ControlState, effects: seq<Effect>)

  /** `stop()`: abort the backend, cancel the running task, raise the stop
      flag, open the gate and forget the snapshot. */
  function OnStop(b: Backend, s: ControlState): (r: Reaction)
    ensures r.state.stopped && r.state.gateOpen && r.state.pending.None?
    ensures r.state.current == s.current && r.state.running == s.running
    ensures r.effects == [Abort(b)] + CancelRunning(s)
  {
    match b
    case Kachaka =>
      Reaction(s.(stopped := true, gateOpen := true, pending := None), [CancelCommand] + CancelRunning(s))
    case Akari =>
      Reaction(s.(stopped := true, gateOpen := true, pending := None), [SendToAkari("stop")] + CancelRunning(s))
  }

  /** `pause()`. `commandRunning` is the answer Kachaka's
      `is_command_running()` gives; Akari does not ask. */
  function OnPause(b: Backend, s: ControlState, commandRunning: bool): (r: Reaction)
    ensures s.stopped || !s.gateOpen ==> r == Reaction(s, [])
    ensures !s.stopped && s.gateOpen ==>
              !r.state.gateOpen && r.state.stopped == s.stopped
              && r.state.current == s.current && r.state.running == s.running
    ensures !s.stopped && s.gateOpen && s.current.Some? && s.pending.None? ==>
              r.state.pending == s.current
    ensures !(s.current.Some? && s.pending.None?) ==> r.state.pending == s.pending && r.effects == []
  {
    if s.stopped || !s.gateOpen then Reaction(s, [])
    else
      var closed := s.(gateOpen := false);
      if s.current.Some? && s.pending.None? then
        var saved := closed.(pending := s.current);
        match b
        case Kachaka =>
          Reaction(saved, if commandRunning then [CancelCommand]
                          else if s.running.Some? then [CancelTask(s.running.value)]
                          else [])
        case Akari =>
          Reaction(saved, [SendToAkari("pause")] + CancelRunning(s))
      else Reaction(closed, [])
  }

  /** `resume()`: clear the stop flag and open the gate. */
  function OnResume(s: ControlState): (r: Reaction)
    ensures !r.state.stopped && r.state.gateOpen && r.effects == []
    ensures r.state.current == s.current && r.state.pending == s.pending && r.state.running == s.running
  {
    Reaction(s.(stopped := false, gateOpen := true), [])
  }

  /** `skip()`: like `resume()`, and when a task is current, abort it without
      saving it. */
  function OnSkip(b: Backend, s: ControlState): (r: Reaction)
    ensures !r.state.stopped && r.state.gateOpen
    ensures r.state.current == s.current && r.state.pending == s.pending && r.state.running == s.running
    ensures s.current.None? ==> r.effects == []
    ensures s.current.Some? ==> r.effects == [if b == Kachaka then CancelCommand else SendToAkari("skip")] + CancelRunning(s)
  {
    var armed := s.(stopped := false, gateOpen := true);
    if s.current.None? then Reaction(armed, [])
    else
      match b
      case Kachaka => Reaction(armed, [CancelCommand] + CancelRunning(s))
      case Akari => Reaction(armed, [SendToAkari("skip")] + CancelRunning(s))
  }

  /** `reset()`: re-arm the controller, forgetting current and saved work.
      The running task handle is left as it is. */
  function OnReset(s: ControlState): (r: Reaction)
    ensures !r.state.stopped && r.state.gateOpen && r.state.pending.None? && r.state.current.None?
    ensures r.state.running == s.running && r.effects == []
  {
    Reaction(s.(stopped := false, gateOpen := true, pending := None, current := None), [])
  }

  function OnInterrupt(b: Backend, s: ControlState, i: Interrupt, commandRunning: bool): Reaction {
    match i
    case Stop => OnStop(b, s)
    case Pause => OnPause(b, s, commandRunning)
    case Resume => OnResume(s)
    case Skip => OnSkip(b, s)
    case Reset => OnReset(s)
  }

  /** Closing the gate on a safety or timeout result (`judge_result`), with a
      snapshot of the current task when nothing is saved yet. */
  function Hold(s: ControlState): (r: ControlState)
    ensures !r.gateOpen && r.stopped == s.stopped && r.current == s.current && r.running == s.running
    ensures r.pending == (if s.pending.None? then s.current else s.pending)
  {
    var closed := s.(gateOpen := false);
    if s.current.Some? && s.pending.None? then closed.(pending := s.current) else closed
  }

  // ---------------------------------------------------------------------------
  // Event traces
  // ---------------------------------------------------------------------------

  datatype Event =
    | Enter(op: OpRecord, task: TaskId)          // a guarded operation is called
    | Leave(how: BodyExit)                       // its body ends
    | Recover                                    // a recovery step runs
    | Held                                       // a safety or timeout result is classified
    | Signal(i: Interrupt, commandRunning: bool) // an interrupt entry point is called

  datatype Output = Quiet | Bypassed | Raised | Recovering(r: Recovery)

  datatype StepResult = StepResult(state: ControlState, effects: seq<Effect>, out: Output)

  function Step(b: Backend, methods: set<string>, s: ControlState, e: Event): StepResult {
    match e
    case Enter(op, task) =>
      (match GuardEnter(s, op, task)
       case Skipped => StepResult(s, [], Bypassed)
       case Entered(s') => StepResult(s', [], Quiet))
    case Leave(how) =>
      var x := GuardLeave(b, s, how);
      StepResult(x.state, x.effects, if x.raises then Raised else Quiet)
    case Recover =>
      var r := RecoveryStep(s, methods);
      StepResult(r.state, [], Recovering(r.outcome))
    case Held => StepResult(Hold(s), [], Quiet)
    case Signal(i, running) =>
      var r := OnInterrupt(b, s, i, running);
      StepResult(r.state, r.effects, Quiet)
  }

  datatype Trace = Trace(state: ControlState, outs: seq<Output>)

  /** The state after a sequence of events, and what each event produced. */
  function Run(b: Backend, methods: set<string>, s: ControlState, es: seq<Event>): (r: Trace)
    ensures |r.outs| == |es|
    decreases |es|
  {
    if es == [] then Trace(s, [])
    else
      var x := Step(b, methods, s, es[0]);
      var t := Run(b, methods, x.state, es[1..]);
      Trace(t.state, [x.out] + t.outs)
  }

  predicate Rearms(e: Event) {
    e.Signal? && (e.i == Resume || e.i == Skip || e.i == Reset)
  }

  /** Once stopped, a controller skips every guarded operation until it is
      re-armed by `resume`, `skip` or `reset`. */
  lemma {:induction false} StopIsSticky(b: Backend, methods: set<string>, s: ControlState, es: seq<Event>)
    requires s.stopped
    requires forall k :: 0 <= k < |es| ==> !Rearms(es[k])
    ensures Run(b, methods, s, es).state.stopped
    ensures forall k :: 0 <= k < |es| && es[k].Enter? ==> Run(b, methods, s, es).outs[k] == Bypassed
    decreases |es|
  {
    if es != [] {
      var x := Step(b, methods, s, es[0]);
      assert x.state.stopped;
      StopIsSticky(b, methods, x.state, es[1..]);
      var t := Run(b, methods, x.state, es[1..]);
      forall k | 0 <= k < |es| && es[k].Enter?
        ensures Run(b, methods, s, es).outs[k] == Bypassed
      {
        if k > 0 {
          assert es[1..][k - 1] == es[k];
        }
      }
    }
  }

  predicate Forgets(e: Event) {
    e == Leave(Failed) || e == Recover || (e.Signal? && (e.i == Stop || e.i == Reset))
  }

  /** A snapshot is never overwritten: while no event discards it, the saved
      operation stays exactly the one first saved, whatever pauses or
      safety results arrive. */
  lemma {:induction false} SnapshotTakenOnce(b: Backend, methods: set<string>, s: ControlState, es: seq<Event>)
    requires s.pending.Some?
    requires forall k :: 0 <= k < |es| ==> !Forgets(es[k])
    ensures Run(b, methods, s, es).state.pending == s.pending
    decreases |es|
  {
    if es != [] {
      var x := Step(b, methods, s, es[0]);
      assert !Forgets(es[0]);
      assert x.state.pending == s.pending;
      SnapshotTakenOnce(b, methods, x.state, es[1..]);
    }
  }

  /** The events that can save a snapshot: a pause and a held result. */
  predicate Snapshots(e: Event) {
    e.Held? || (e.Signal? && e.i == Pause)
  }

  predicate IsReplay(o: Output) {
    o.Recovering? && o.r.Replay?
  }

  /** How many replays a sequence of outputs holds. */
  function Replays(outs: seq<Output>): nat
    decreases |outs|
  {
    if outs == [] then 0 else (if IsReplay(outs[0]) then 1 else 0) + Replays(outs[1..])
  }

  /** Without a snapshot-saving event a step never creates a snapshot, and a
      replay consumes the one there is. */
  lemma StepSavesNoSnapshot(b: Backend, methods: set<string>, s: ControlState, e: Event)
    requires !Snapshots(e)
    ensures var x := Step(b, methods, s, e);
            (x.state.pending.Some? ==> x.state.pending == s.pending)
            && (IsReplay(x.out) ==> s.pending.Some? && x.out.r.op == s.pending.value && x.state.pending.None?)
  {
  }

  /** Each replay consumes one snapshot: in any trace without a pause or a
      held result, the saved operation is replayed at most once, it is the
      one saved at the start, and nothing is replayed when nothing was saved. */
  lemma {:induction false} ReplayConsumesSnapshot(b: Backend, methods: set<string>, s: ControlState, es: seq<Event>)
    requires forall k :: 0 <= k < |es| ==> !Snapshots(es[k])
    ensures var t := Run(b, methods, s, es);
            Replays(t.outs) <= (if s.pending.Some? then 1 else 0)
            && (s.pending.None? ==> t.state.pending.None?)
            && forall k :: 0 <= k < |t.outs| && IsReplay(t.outs[k]) ==> Some(t.outs[k].r.op) == s.pending
    decreases |es|
  {
    if es != [] {
      var x := Step(b, methods, s, es[0]);
      StepSavesNoSnapshot(b, methods, s, es[0]);
      ReplayConsumesSnapshot(b, methods, x.state, es[1..]);
      var t := Run(b, methods, x.state, es[1..]);
      var outs := Run(b, methods, s, es).outs;
      assert outs == [x.out] + t.outs;
      assert outs[1..] == t.outs;
      forall k | 0 <= k < |outs| && IsReplay(outs[k])
        ensures Some(outs[k].r.op) == s.pending
      {
        if k > 0 {
          assert outs[k] == t.outs[k - 1];
        }
      }
    }
  }

  /** Whenever a task is recorded as current, a task handle is recorded too. */
  predicate HandleTracked(s: ControlState) {
    s.current.Some? ==> s.running.Some?
  }

  lemma StepKeepsHandle(b: Backend, methods: set<string>, s: ControlState, e: Event)
    requires HandleTracked(s)
    ensures HandleTracked(Step(b, methods, s, e).state)
  {
  }

  lemma {:induction false} RunKeepsHandle(b: Backend, methods: set<string>, s: ControlState, es: seq<Event>)
    requires HandleTracked(s)
    ensures HandleTracked(Run(b, methods, s, es).state)
    decreases |es|
  {
    if es != [] {
      StepKeepsHandle(b, methods, s, es[0]);
      RunKeepsHandle(b, methods, Step(b, methods, s, es[0]).state, es[1..]);
    }
  }

  /** A pause that saves a snapshot always interrupts the in-flight work:
      Kachaka cancels the command or the task, Akari is told to pause and its
      task is cancelled. */
  lemma PauseInterruptsWork(b: Backend, s: ControlState, commandRunning: bool)
    requires HandleTracked(s) && !s.stopped && s.gateOpen && s.current.Some? && s.pending.None?
    ensures var r := OnPause(b, s, commandRunning);
            r.state.pending == s.current
            && (b == Kachaka ==> r.effects == (if commandRunning then [CancelCommand] else [CancelTask(s.running.value)]))
            && (b == Akari ==> r.effects == [SendToAkari("pause"), CancelTask(s.running.value)])
  {
  }

  /** `o` is empty, was saved or current in `s`, or was started by one of `es`. */
  predicate FromStart(o: Option<OpRecord>, s: ControlState, es: seq<Event>) {
    o.None? || o == s.pending || o == s.current
    || exists k :: 0 <= k < |es| && es[k].Enter? && o == Some(es[k].op)
  }

  lemma StepOrigin(b: Backend, methods: set<string>, s: ControlState, e: Event)
    ensures var x := Step(b, methods, s, e).state;
            FromStart(x.pending, s, [e]) && FromStart(x.current, s, [e])
  {
    var x := Step(b, methods, s, e).state;
    if e.Enter? && !s.stopped {
      assert [e][0] == e;
      assert x.current == Some(e.op);
    }
  }

  /** Every operation a controller may replay or report as current was
      already saved or current at the start, or was started by one of the
      events: nothing else is ever snapshotted. */
  lemma {:induction false} ReplaysOnlyStartedWork(b: Backend, methods: set<string>, s: ControlState, es: seq<Event>)
    ensures var t := Run(b, methods, s, es).state;
            FromStart(t.pending, s, es) && FromStart(t.current, s, es)
    decreases |es|
  {
    if es != [] {
      var x := Step(b, methods, s, es[0]).state;
      var t := Run(b, methods, s, es).state;
      assert t == Run(b, methods, x, es[1..]).state;
      ReplaysOnlyStartedWork(b, methods, x, es[1..]);
      StepOrigin(b, methods, s, es[0]);
      Widen(t.pending, s, x, es);
      Widen(t.current, s, x, es);
    }
  }

  lemma Widen(o: Option<OpRecord>, s: ControlState, x: ControlState, es: seq<Event>)
    requires es != []
    requires FromStart(o, x, es[1..])
    requires FromStart(x.pending, s, [es[0]]) && FromStart(x.current, s, [es[0]])
    ensures FromStart(o, s, es)
  {
    if o.Some? && o != x.pending && o != x.current {
      var k :| 0 <= k < |es[1..]| && es[1..][k].Enter? && o == Some(es[1..][k].op);
      assert es[k + 1] == es[1..][k];
    } else if o.Some? && o != s.pending && o != s.current {
      var k :| 0 <= k < 1 && [es[0]][k].Enter? && o == Some([es[0]][k].op);
      assert es[0] == [es[0]][k];
    }
  }

  lemma RunCons(b: Backend, methods: set<string>, s: ControlState, e: Event, es: seq<Event>)
    ensures var x := Step(b, methods, s, e);
            var t := Run(b, methods, x.state, es);
            Run(b, methods, s, [e] + es) == Trace(t.state, [x.out] + t.outs)
  {
    assert ([e] + es)[0] == e;
    assert ([e] + es)[1..] == es;
  }

  /** Pause, then resume, with no stop or reset between: the operation that
      was running is replayed exactly once, from the start, with its original
      arguments, and a successful replay leaves no task state behind. This is
      the Kachaka flow: the cancelled command reports the interrupt code, so
      the body returns normally. */
  lemma PauseResumeReplaysOnce(methods: set<string>, op: OpRecord, task: TaskId)
    requires op.name in methods
    ensures var es := [Enter(op, task), Signal(Pause, true), Leave(Returned), Recover,
                       Signal(Resume, false), Recover,
                       Enter(op, task), Leave(Returned), Recover];
            var t := Run(Kachaka, methods, Fresh, es);
            t.outs == [Quiet, Quiet, Quiet, Recovering(Waiting),
                       Quiet, Recovering(Replay(op)),
                       Quiet, Quiet, Recovering(Finished)]
            && t.state == Fresh
  {
    PauseResumeFlow(Kachaka, methods, op, task, true, Returned);
  }

  /** The Akari flow: the pause cancels the task, the guard reports the
      cancellation with "stop", and resuming replays the saved operation once. */
  lemma AkariPauseResumeReplaysOnce(methods: set<string>, op: OpRecord, task: TaskId)
    requires op.name in methods
    ensures var es := [Enter(op, task), Signal(Pause, false), Leave(Cancelled), Recover,
                       Signal(Resume, false), Recover,
                       Enter(op, task), Leave(Returned), Recover];
            var t := Run(Akari, methods, Fresh, es);
            t.outs == [Quiet, Quiet, Quiet, Recovering(Waiting),
                       Quiet, Recovering(Replay(op)),
                       Quiet, Quiet, Recovering(Finished)]
            && t.state == Fresh
  {
    PauseResumeFlow(Akari, methods, op, task, false, Cancelled);
  }

  lemma FlowSteps(b: Backend, methods: set<string>, op: OpRecord, task: TaskId,
                   commandRunning: bool, how: BodyExit)
    requires op.name in methods && how != Failed
    ensures var s1 := Fresh.(current := Some(op), running := Some(task));
            var s2 := s1.(gateOpen := false, pending := Some(op));
            var s3 := s2.(current := None, running := None);
            var s4 := s3.(gateOpen := true);
            && Step(b, methods, Fresh, Enter(op, task)) == StepResult(s1, [], Quiet)
            && Step(b, methods, s1, Signal(Pause, commandRunning)).state == s2
            && Step(b, methods, s1, Signal(Pause, commandRunning)).out == Quiet
            && Step(b, methods, s2, Leave(how)).state == s3
            && Step(b, methods, s2, Leave(how)).out == Quiet
            && Step(b, methods, s3, Recover) == StepResult(s3, [], Recovering(Waiting))
            && Step(b, methods, s3, Signal(Resume, false)) == StepResult(s4, [], Quiet)
            && Step(b, methods, s4, Recover) == StepResult(Fresh, [], Recovering(Replay(op)))
  {
  }

  /** Running two event sequences one after the other is running their
      concatenation. */
  lemma {:induction false} RunAppend(b: Backend, methods: set<string>, s: ControlState, xs: seq<Event>, ys: seq<Event>)
    ensures var t := Run(b, methods, s, xs);
            var u := Run(b, methods, t.state, ys);
            Run(b, methods, s, xs + ys) == Trace(u.state, t.outs + u.outs)
    decreases |xs|
  {
    if xs == [] {
      assert xs + ys == ys;
    } else {
      var x := Step(b, methods, s, xs[0]);
      assert (xs + ys)[0] == xs[0];
      assert (xs + ys)[1..] == xs[1..] + ys;
      RunAppend(b, methods, x.state, xs[1..], ys);
    }
  }

  /** The pause/resume flow for either backend, however the interrupted body
      ends short of failing. */
  lemma PauseResumeFlow(b: Backend, methods: set<string>, op: OpRecord, task: TaskId,
                        commandRunning: bool, how: BodyExit)
    requires op.name in methods && how != Failed
    ensures var es := [Enter(op, task), Signal(Pause, commandRunning), Leave(how), Recover,
                       Signal(Resume, false), Recover,
                       Enter(op, task), Leave(Returned), Recover];
            var t := Run(b, methods, Fresh, es);
            t.outs == [Quiet, Quiet, Quiet, Recovering(Waiting),
                       Quiet, Recovering(Replay(op)),
                       Quiet, Quiet, Recovering(Finished)]
            && t.state == Fresh
  {
    var xs := [Enter(op, task), Signal(Pause, commandRunning), Leave(how), Recover,
               Signal(Resume, false), Recover];
    var ys := [Enter(op, task), Leave(Returned), Recover];
    InterruptedHalf(b, methods, op, task, commandRunning, how);
    ReplayHalf(b, methods, op, task);
    RunAppend(b, methods, Fresh, xs, ys);
    assert xs + ys == [Enter(op, task), Signal(Pause, commandRunning), Leave(how), Recover,
                       Signal(Resume, false), Recover,
                       Enter(op, task), Leave(Returned), Recover];
  }

  /** Start, pause, interrupted body, recovery waiting, resume, recovery
      handing back the saved operation. */
  lemma {:induction false} InterruptedHalf(b: Backend, methods: set<string>, op: OpRecord, task: TaskId,
                                          commandRunning: bool, how: BodyExit)
    requires op.name in methods && how != Failed
    ensures var t := Run(b, methods, Fresh, [Enter(op, task), Signal(Pause, commandRunning), Leave(how), Recover,
                                             Signal(Resume, false), Recover]);
            t.outs == [Quiet, Quiet, Quiet, Recovering(Waiting), Quiet, Recovering(Replay(op))]
            && t.state == Fresh
  {
    var s1 := Fresh.(current := Some(op), running := Some(task));
    var s2 := s1.(gateOpen := false, pending := Some(op));
    var s3 := s2.(current := None, running := None);
    var s4 := s3.(gateOpen := true);
    var e1, e2, e3, e4 := Enter(op, task), Signal(Pause, commandRunning), Leave(how), Recover;
    var e5, e6 := Signal(Resume, false), Recover;
    FlowSteps(b, methods, op, task, commandRunning, how);
    var t6 := [e6];
    var t5 := [e5] + t6;
    var t4 := [e4] + t5;
    var t3 := [e3] + t4;
    var t2 := [e2] + t3;
    var t1 := [e1] + t2;
    RunCons(b, methods, s4, e6, []);
    assert t6 == [e6] + [];
    RunCons(b, methods, s3, e5, t6);
    RunCons(b, methods, s3, e4, t5);
    RunCons(b, methods, s2, e3, t4);
    RunCons(b, methods, s1, e2, t3);
    RunCons(b, methods, Fresh, e1, t2);
    assert t1 == [e1, e2, e3, e4, e5, e6];
  }

  /** The replayed operation runs to completion and recovery finds nothing
      more to do. */
  lemma {:induction false} ReplayHalf(b: Backend, methods: set<string>, op: OpRecord, task: TaskId)
    ensures var t := Run(b, methods, Fresh, [Enter(op, task), Leave(Returned), Recover]);
            t.outs == [Quiet, Quiet, Recovering(Finished)] && t.state == Fresh
  {
    var s1 := Fresh.(current := Some(op), running := Some(task));
    var e7, e8, e9 := Enter(op, task), Leave(Returned), Recover;
    assert Step(b, methods, Fresh, e7) == StepResult(s1, [], Quiet);
    assert Step(b, methods, s1, e8) == StepResult(Fresh, [], Quiet);
    assert Step(b, methods, Fresh, e9) == StepResult(Fresh, [], Recovering(Finished));
    RunCons(b, methods, Fresh, e9, []);
    assert [e9] + [] == [e9];
    RunCons(b, methods, s1, e8, [e9]);
    assert [e8] + [e9] == [e8, e9];
    RunCons(b, methods, Fresh, e7, [e8, e9]);
    assert [e7] + [e8, e9] == [e7, e8, e9];
  }
}
