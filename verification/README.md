# LLM-Interrupt-System2025, modelled in Dafny

The system drives two robots, a mobile base (Kachaka) and a small humanoid
head (Akari), with Python scripts generated by a language model. Three
processes are involved:

- an operator console (`manager.py`) that turns typed lines into bus
  messages;
- a dispatcher (`robots_client.py`) that starts scripts, routes interrupt
  words and manual commands, and wraps each script into a coroutine;
- the two robot controllers (`function_list_kachaka.py`,
  `function_list_akari.py`).

Every robot operation of the controllers runs inside a guard
(`decorated_execution`). The guard records the operation as the current
one, so that an interrupt can cancel it: pause, stop, skip or reset. Later,
`handle_pause_and_recovery` waits for the gate to reopen and replays the
snapshot. The language-model side (`_LLM/LLM_manager.py`) keeps three
files: the generated script, a rolling log of the last few scripts, and a
token-usage log with running totals.

This project states all of this as pure functions over immutable data:

- `Controller`: the shared control state of a controller, and its reaction
  to the guard, the recovery loop and the five interrupts. Event traces
  (`Run`) connect them.
- `Classifier`: Kachaka's verdict on a command result, the move timeout,
  Akari's result topic and its face display.
- `Dispatcher`: the dispatcher's message routing, script start, script
  wrapping, runner cleanup and manual commands, and the gate across runs.
- `Operator`: the console encoder, checked against the dispatcher's parser.
- `ScriptLog`: saving a reply as a script, and the rolling script log with
  its read-back round trip.
- `TokenLog`: the token-usage log, written and read back.
- `PyStr`: the Python `str` operations the code relies on: `strip`,
  `split`, `split(sep)`, `replace`, `splitlines`, `lower`, `startswith`, `in`
  and `int`.
- `Wrappers`: `Option`.

The bus, files, clock and robots do not appear in the model. A file's
contents are an `Option<string>` (absent, or its text), a bus message is a
topic and a payload, and the timestamp is a string parameter.

A few behaviours of the code may be unexpected. The model keeps them as the
code has them:

- the Kachaka guard sends no abort on an exception, only on cancellation;
- `reset` leaves the running-task handle alone;
- `resume` opens the gate and leaves the snapshot for the recovery loop to
  clear;
- `max_entries = 0` keeps the whole script log, because `entries[-0:]` is
  the whole list;
- a usage line identical to the last kept line of the token log is dropped
  when the log is next read (`TokenLog.RepeatedEntryMerges`).

## Model

| member | source | states |
|---|---|---|
| Controller.GuardEnter | _robot_function/function_list_kachaka.py:44-55 | a stopped controller skips the operation; otherwise the operation becomes current and its task becomes the running one, with the gate, stop flag and snapshot unchanged |
| Controller.GuardLeave | _robot_function/function_list_kachaka.py:59-79 | whatever the exit, the current operation and task are cleared and the gate and stop flag are kept; a cancellation sends one abort and keeps the snapshot; only an exception is re-raised, it clears the snapshot, and on Akari it also sends "finish" |
| Controller.RecoveryStep | _robot_function/function_list_kachaka.py:92-117 | with the gate closed the loop waits and changes nothing; with the gate open and no snapshot it finishes; otherwise it clears the snapshot and replays it when the method exists, or reports the unknown name, with nothing else changed |
| Controller.OnStop | _robot_function/function_list_kachaka.py:379-390 | stop sets the stop flag, opens the gate and drops the snapshot, sends an abort, and cancels the running task when there is one |
| Controller.OnPause | _robot_function/function_list_kachaka.py:392-416 | a pause on a stopped or already paused controller does nothing; otherwise it closes the gate, snapshots the current operation unless a snapshot exists, and keeps the stop flag and handles |
| Controller.PauseInterruptsWork | _robot_function/function_list_kachaka.py:392-416 | pausing a running operation snapshots it; on Kachaka it cancels the robot command when one runs and the task otherwise; on Akari it sends "pause" and cancels the task |
| Controller.OnResume | _robot_function/function_list_kachaka.py:418-422 | resume clears the stop flag, opens the gate, sends nothing and leaves the snapshot and handles in place |
| Controller.OnSkip | _robot_function/function_list_kachaka.py:424-433 | skip clears the stop flag and opens the gate; with a current operation it cancels the robot command (Kachaka) or sends "skip" (Akari) and cancels the task; with none it sends nothing |
| Controller.OnReset | _robot_function/function_list_kachaka.py:435-441 | reset clears the stop flag, the snapshot and the current operation, opens the gate, sends nothing and keeps the running-task handle |
| Controller.Hold | _robot_function/function_list_kachaka.py:457-462 | a safety stop or timeout closes the gate and snapshots the current operation only when no snapshot exists, with everything else unchanged |
| Controller.Run | _robot_function/function_list_kachaka.py:40-117 | a trace of guard, interrupt and recovery events yields one observable output per event |
| Controller.StopIsSticky | _robot_function/function_list_kachaka.py:49-51 | after stop, until a resume, skip or reset, the controller stays stopped and every operation entered is skipped |
| Controller.SnapshotTakenOnce | _robot_function/function_list_kachaka.py:405-407 | once a snapshot exists, no event except a recovery, an exception exit, stop or reset replaces it |
| Controller.ReplayConsumesSnapshot | _robot_function/function_list_kachaka.py:102-115 | in any trace without a pause or a held result, the saved operation is replayed at most once and it is the one saved at the start; nothing is replayed when nothing was saved, and no snapshot appears |
| Controller.RunKeepsHandle | _robot_function/function_list_kachaka.py:53-79 | a current operation always has a running-task handle, across any event trace |
| Controller.ReplaysOnlyStartedWork | _robot_function/function_list_kachaka.py:92-117 | the snapshot and the current operation at the end of any trace are operations that the trace itself entered, or were there at its start |
| Controller.PauseResumeFlow | _robot_function/function_list_kachaka.py:40-117 | an operation paused mid-flight, whether it returns or is cancelled, is replayed exactly once after resume; the replay finishes and the controller ends in its initial state |
| Controller.PauseResumeReplaysOnce | _robot_function/function_list_kachaka.py:392-422 | on Kachaka, with a robot command running, pause, resume and recovery replay the operation once and return to the initial state |
| Controller.AkariPauseResumeReplaysOnce | _robot_function/function_list_akari.py:90-155 | on Akari, where pause cancels the task, the cancelled operation is replayed once after resume and the controller returns to its initial state |
| Classifier.Classify | _robot_function/function_list_kachaka.py:444-487 | the verdict is an error-code verdict exactly when the lower-cased response mentions "error_code", success exactly when it mentions "success" and no code, a timeout exactly when it mentions "timeout_error" and neither of those, and otherwise the result is only logged; an interrupt or safety verdict carries a code that was read and lies in that set |
| Classifier.JudgeResult | _robot_function/function_list_kachaka.py:444-487 | an exception "Kachaka Error: " plus the response is raised exactly on a fatal verdict, with the state unchanged; safety stops and timeouts hold the controller as `Hold` does; a timeout speaks exactly the route warning, a fatal code speaks its description when one is known and nothing otherwise, and every other verdict says nothing |
| Classifier.ReportedCodeDecides | _robot_function/function_list_kachaka.py:447-471 | a response "error_code: <n>" is judged by whether n is an interrupt code, a safety code or neither, and the code as written judges it the same way |
| Classifier.ConfiguredCodes | config.py:91-98 | for every numeric error report, with the configured sets: 11005, 11009 and 22002 pause as safety stops, 10001 is ignored as an interrupt, and every other code is fatal |
| Classifier.TimeoutHoldsLikeSafety | _robot_function/function_list_kachaka.py:457-484 | a timeout and a safety code leave the controller in the same held state, and a timeout speaks the timeout warning |
| Classifier.FatalCodeIsAnnounced | _robot_function/function_list_kachaka.py:464-471 | a code outside both sets raises, and its description is spoken first when one is known |
| Classifier.MovingTimeout | _robot_function/function_list_kachaka.py:359-371 | with no distance the timeout is 30 seconds; with a non-negative distance it is at least 30 |
| Classifier.MovingTimeoutMonotone | _robot_function/function_list_kachaka.py:359-371 | a longer distance never gets a shorter timeout, and docking adds exactly 30 seconds |
| Classifier.ReportOf | _robot_function/function_list_akari.py:74-85 | payloads "0", "1" and "4" report completion, "-1" and "2" report an error, and any other payload reports nothing |
| Classifier.CompletionIffSignalled | _robot_function/function_list_akari.py:74-85 | after a sequence of bus messages the completion flag is set exactly when it was set before or some message on the result topic reported completion or an error |
| Classifier.DisplayFor | _robot_function/function_list_akari.py:269-289 | a text state other than the three named ones is shown as that text in black; a non-text state shows an empty black display |
| Classifier.DisplayMatchesEmotion | _robot_function/function_list_akari.py:259-289 | the three named states show their fixed text in the colour their emotion uses, and every other state is shown in black |
| Dispatcher.PerformAppend | robots_client.py:163-248 | running two lists of dispatcher actions one after the other is the same as running their concatenation |
| Dispatcher.ResolvePathSettles | robots_client.py:98-103 | a bare file name is looked up under `_robot_programs/`, a path with a directory part is kept as given, and resolving twice changes nothing |
| Dispatcher.StartTask | robots_client.py:91-109 | a start while busy is refused; otherwise the resolved path is used, and the run is scheduled exactly when the dispatcher is idle and that file exists |
| Dispatcher.Indent | robots_client.py:63-66 | every script line is indented by four spaces, none added or lost |
| Dispatcher.WrapLayout | robots_client.py:63-66 | the wrapped script, read back as lines, is the `_main(a,b)` header followed by every source line indented by four spaces, and removing the indentation gives the source lines back |
| Dispatcher.RunnerCleansUp | robots_client.py:40-89 | a run with both clients holds the gate, stops both controllers exactly when the script raised, always resets both, and ends idle; with a client missing it does nothing |
| Dispatcher.ResetBoth | robots_client.py:82-87 | the cleanup resets both controllers' control state and leaves the dispatcher idle |
| Dispatcher.PlanManual | robots_client.py:131-161 | an empty command does nothing; an unknown method is reported; otherwise the named method is invoked with at most one argument string |
| Dispatcher.JoinWordsEmpty | robots_client.py:137-138 | the joined argument string is empty exactly when there are no argument words |
| Dispatcher.ManualArgumentResplits | robots_client.py:136-150 | the method receives the argument words joined by single spaces, and splitting that string gives the words back |
| Dispatcher.ManualReleasesGate | robots_client.py:144-159 | an invoked manual command leaves the dispatcher idle whether or not it raised, and resets both controllers when it returned; an empty or unknown command changes nothing |
| Dispatcher.InterruptWordLowered | robots_client.py:115-116 | each interrupt word, lower-cased, names the matching controller method |
| Dispatcher.FanOutReachesBoth | robots_client.py:111-129 | an interrupt that both controllers define is invoked on Kachaka and then on Akari, each followed by its announcement |
| Dispatcher.FanOutSkipsMissing | robots_client.py:118-129 | a controller without the method is skipped and nothing is announced for it |
| Dispatcher.BroadcastStopHalts | robots_client.py:111-129 | a broadcast STOP leaves both controllers stopped with the gate open and no snapshot |
| Dispatcher.Route | robots_client.py:163-248 | the loop ends exactly on "finish" on the status topic; each other message yields its reaction |
| Dispatcher.StartUsesSecondWord | robots_client.py:195-198 | "START <words>" starts the first word after START and publishes "Task started: " with that word |
| Dispatcher.InterruptsIgnoreGate | robots_client.py:221-223 | the five interrupt words are handed to the fan-out whether or not a script runs |
| Dispatcher.ManualPreemptsRun | robots_client.py:201-218 | a manual command for a robot starts at once when idle; while busy it is preceded by a broadcast STOP and a wait for the gate |
| Dispatcher.ManualGetsArgumentWords | robots_client.py:201-218 | the words after the robot keyword are exactly the words passed to the manual command |
| Dispatcher.RunFlightKeepsSingle | robots_client.py:40-109 | with the gate taken when a run is scheduled, at most one run is ever scheduled or executing, and the gate is idle exactly when none is |
| Dispatcher.FlightStepKeepsSingle | robots_client.py:91-109 | each start, runner begin and completion keeps that single-run invariant |
| Dispatcher.BusyRequestRejected | robots_client.py:93-95 | a start while a run is scheduled or executing changes nothing |
| Dispatcher.StartsAloneKeepSingleAsWritten | robots_client.py:91-109 | as written, on START messages alone, every scheduled runner takes the gate before the next message (the loop awaits a publish at line 198), so at most one script runs at a time |
| Dispatcher.DoubleStartAsWritten | robots_client.py:49 | as written, two start requests handled before the first runner begins both pass the gate, and two scripts execute at once |
| Dispatcher.DoubleStartRejected | robots_client.py:91-109 | with the gate taken at scheduling, the second start is refused, one script executes, and the gate is idle after it completes |
| Dispatcher.RouteAsWrittenFailsOnlyOnBareStart | robots_client.py:195-198 | of the routing decisions themselves, the loop as written fails exactly on a START with no file name, and otherwise reacts as the corrected `Route` does; exceptions raised by the actions it triggers are not modelled |
| Dispatcher.BareStartEndsLoop | robots_client.py:195-198 | "START " alone escapes the loop as written; the corrected loop ignores it |
| Operator.Encode | manager.py:88-151 | a blank line sends nothing; every sent message is non-empty and goes to the command, order or status topic; a status message is the trimmed line |
| Operator.EncodeCommand | manager.py:103-151 | the same guarantees for one command word and its argument |
| Operator.EncodeTrims | manager.py:94 | surrounding whitespace never changes what is sent |
| Operator.SimpleCommandWords | manager.py:25-31 | each console interrupt word maps to the upper-case message the dispatcher recognises |
| Operator.TypedStartRuns | manager.py:109-116 | `start <file ...>` sends "START " plus the argument, and the dispatcher starts the second typed word |
| Operator.TypedManualEncodes | manager.py:125-139 | `kachaka ...` and `akari ...` with an argument send the robot keyword, a space and the argument |
| Operator.TypedManualRuns | manager.py:125-139 | the dispatcher passes the typed words after the robot name to a manual command on that robot |
| Operator.TypedInterruptFansOut | manager.py:103-107 | an interrupt word typed in any letter case reaches both controllers whether or not a script runs |
| Operator.TypedOrderGenerates | manager.py:117-122 | `order <text>` asks for a generated script from that text, announces it and starts it |
| Operator.TypedOtherIsStatus | manager.py:148-151 | any other word sends the trimmed line on the status topic |
| Operator.CommandWithoutMessage | manager.py:109-146 | for one command word: `start`, `order`, `kachaka` and `akari` with an empty argument publish nothing, `help` shows the help and `exit` ends the loop |
| Operator.TypedWithoutMessage | manager.py:109-146 | `start`, `order`, `kachaka` and `akari` without an argument publish nothing; `help` only shows the help and `exit` only ends the loop |
| Operator.OperatorNeverCrashesDispatcher | manager.py:88-151 | no typed line produces a message that makes the dispatcher's loop fail as written |
| Operator.StatusWordsReachDispatcher | manager.py:148-151 | typing "finish" ends the dispatcher, and typing "fin" tells Akari to finish |
| ScriptLog.SaveResponse | _LLM/LLM_manager.py:44-53 | a file is written exactly when there is a reply, and the saved text contains no code fence |
| ScriptLog.FencesRemoved | _LLM/LLM_manager.py:51 | removing every fence leaves no fence, even where removal brings backticks together |
| ScriptLog.PlainReplyOnlyTrimmed | _LLM/LLM_manager.py:49-52 | a reply without fences is saved trimmed and otherwise unchanged |
| ScriptLog.FencedReplySavesCode | _LLM/LLM_manager.py:49-52 | a reply fenced as a Python code block is saved as exactly the code inside |
| ScriptLog.Parse | _LLM/LLM_manager.py:67 | the entries read from the log are non-empty, trimmed and free of the separator |
| ScriptLog.PyTail | _LLM/LLM_manager.py:70 | Python's `entries[-m:]`: for positive m the last m entries, for 0 all of them, for negative m all but the first -m |
| ScriptLog.Append | _LLM/LLM_manager.py:55-77 | the log is rewritten exactly when the script file exists |
| ScriptLog.RoundTrip | _LLM/LLM_manager.py:67-77 | when no entry contains the separator once trimmed, reading back the written log gives the trimmed non-empty entries in order, for any separator without a line break |
| ScriptLog.TidyReadBack | _LLM/LLM_manager.py:67-77 | entries that are already trimmed, non-empty and separator-free are read back unchanged |
| ScriptLog.AppendReadBack | _LLM/LLM_manager.py:55-77 | for a script that is non-empty after trimming and holds no separator, the log reads back after an append as the previous entries plus the new script, cut to the last max_entries in Python's slice sense |
| ScriptLog.AppendReadBackAny | _LLM/LLM_manager.py:55-77 | for any script without the separator, the log reads back as the previous entries plus the trimmed script, cut by max_entries first and then cleaned, so that an empty script still takes a place in the cut |
| ScriptLog.EmptyScriptEvicts | _LLM/LLM_manager.py:61-77 | with the default bound, an empty script (an empty fenced reply saves one) is dropped on the next read; with three or more earlier entries it also pushes out the oldest kept, leaving the last two, and with fewer it leaves the earlier entries as they were |
| ScriptLog.AppendKeepsNewest | _LLM/LLM_manager.py:55-77 | for a script that is non-empty after trimming and holds no separator, with the default bound of 3, the log holds one to three entries, the new script last, the others a suffix of the previous ones, and it grows by one while it had fewer than three |
| ScriptLog.ZeroBoundKeepsAll | _LLM/LLM_manager.py:70 | a bound of 0 keeps every entry |
| TokenLog.ReadLog | _LLM/LLM_manager.py:99-125 | the loop keeps exactly the lines that are neither summaries nor repeats of the previous kept line, and sums the counts of the lines it kept |
| TokenLog.AppendUsage | _LLM/LLM_manager.py:79-142 | the log is written exactly when usage is present; its last three lines are the new usage line and the two running-total lines |
| TokenLog.EntryParses | _LLM/LLM_manager.py:87-123 | a usage line as written reads back as its three counts |
| TokenLog.EntryIsNoSummary | _LLM/LLM_manager.py:87-105 | a usage line is never taken for a summary line |
| TokenLog.TotalsAreSummaries | _LLM/LLM_manager.py:104-142 | both running-total lines are dropped when the log is read again |
| TokenLog.FilteredIsClean | _LLM/LLM_manager.py:99-112 | the kept lines contain no summary and no line that repeats the one before it |
| TokenLog.ReReadAgrees | _LLM/LLM_manager.py:79-142 | reading the rewritten log keeps the old kept lines plus the new usage line, and its sum is the running total just written |
| TokenLog.ReadLines | _LLM/LLM_manager.py:94-96 | `readlines` splits the text into non-empty lines whose concatenation is the text, every line but the last ending in its one line break |
| TokenLog.ReadLinesConcat | _LLM/LLM_manager.py:137-140 | text written line by line reads back as the same lines when every line carries exactly one line break, at its end |
| TokenLog.GluedLine | _LLM/LLM_manager.py:94-96 | a line written without its line break is read back joined to the line written after it |
| TokenLog.ReReadText | _LLM/LLM_manager.py:94-142 | when every kept line ends in its line break and the model name has none, the text written reads back as exactly the lines written, the next read keeps the old kept lines plus the new usage line, and their sum is the running total just written |
| TokenLog.ReReadGlued | _LLM/LLM_manager.py:94-142 | when the last kept line of the old log has no line break, the text written reads back with the new usage line joined onto that line, and the other lines as written |
| TokenLog.RepeatedEntryMerges | _LLM/LLM_manager.py:107-110 | a usage line equal to the last kept line is dropped on the next read, so that usage is not counted |

## Left out

- The MQTT bus, the asyncio tasks and events, threads, files and the robots' APIs: messages, file contents and results are values, and each handler is one function.
- Concurrency between the dispatcher's tasks is not modelled. A manual command's gate window is reduced to its release. An interrupt's handling is one atomic step. The trace model of `Dispatcher.RunFlight` stands for the interleaving of runner tasks.
- Executing the generated script (`exec`) and the LLM calls (`task_generate`, `talk_generate`, `get_chat_response`): each is an opaque action or a parameter.
- The clock: the timestamp of a usage line is a parameter restricted to the characters of `%Y-%m-%d %H:%M:%S`.
- The estimated-cost line of the token log and its floating-point arithmetic (LLM_manager.py:134 and the last line, 143).
- The fallback lookup of a script under `config.BASE_DIR` (robots_client.py:53-55): the runner receives the resolved path.
- Exceptions that end the dispatcher's loop other than the bare START: a payload that is not valid UTF-8 (robots_client.py:181), and a controller, the script generators or a publish raising while the loop awaits them (robots_client.py:198-243). Dispatcher.Route and RouteAsWritten only model the routing decision.
- `res.content` being absent: a reply is an `Option<string>`, and `ScriptLog.SaveResponse(None)` means nothing is written. When the message exists but its `content` is `None`, the source first truncates the file (LLM_manager.py:47) and then raises AttributeError at `.strip()` (:48); neither effect is modelled.
- The console's help text, prompts and printed messages, and its handling of end of input.
- PyStr.Lower: only ASCII letters are lower-cased, unlike Python's Unicode `lower`.
- PyStr.ParseInt: accepts an optional `-` or `+` and ASCII decimal digits. Python's `int` also accepts underscores between digits, non-ASCII decimal digits and surrounding whitespace. The callers strip the token first, and the logs only hold numbers the code itself wrote.
- Classifier.MovingTimeout: Python's float arithmetic is modelled as exact `real` arithmetic; rounding does not change the monotonicity it is used for.
- Classifier.DisplayFor: `NonText` stands for a hashable value that is not a string; an unhashable state makes the dictionary lookups raise TypeError (function_list_akari.py:261, 278), which is not modelled.
- ScriptLog.AppendReadBackAny: no lemma states the read-back of a script that contains the separator itself; such a script is split into several entries on the next read.
- TokenLog.ReadLog: the log is a sequence of lines as `readlines` returns them, not raw text.
- TokenLog.ReReadAgrees: states the next read on the list of lines written, not on the text. That list is what `readlines` gives back only when every kept line ends in a line break and the model name has none (`TokenLog.ReReadText`). An old log whose last line lacks its line break has the new usage line joined onto it (`TokenLog.ReReadGlued`); what that joined line then contributes to the totals is not stated.
- TokenLog.ReadLines: splits at `\n` only. The newline translation of text-mode files (`\r` and `\r\n` read as `\n`) is not modelled, here or in the `f.read()` calls of the script log (LLM_manager.py:61, 66), whose texts `ScriptLog` takes as given.
- Akari's MQTT subscriber, speech synthesis and the robot API manager are context of the controllers and are not part of this model.

## Findings

| source | as written | input that shows it | evidently intended | confidence | as-written member | corrected member |
|---|---|---|---|---|---|---|
| robots_client.py:195-198 | `payload.split()[1]` on a START message whose file name is missing raises IndexError, which escapes to the `except` at line 245 and ends the dispatcher | the payload "START " published on the command topic | a START without a file name is ignored | not executed | Dispatcher.BareStartEndsLoop | Dispatcher.RouteAsWrittenFailsOnlyOnBareStart |
| robots_client.py:91-109 | the gate is checked when a start is requested, but only cleared when the scheduled runner begins (line 49). A START message on its own cannot exploit this, since the loop awaits a publish (line 198) and the runner takes the gate first. An order, however, ends its branch with the start request (line 243), so a START queued behind it is checked against a gate that is still idle | an order message followed by an already queued "START x.py", when the message iterator hands over the queued message without yielding to the order's runner | at most one script runs at a time | not executed; depends on the message iterator not yielding | Dispatcher.DoubleStartAsWritten | Dispatcher.RunFlightKeepsSingle |
| _robot_function/function_list_kachaka.py:449-457 | an error code that is not a number leaves the code variable unbound, or the split finds no token after "error_code", and the judgement raises an unrelated error | the response "error_code: abc" | an unreadable code is judged fatal | not executed | Classifier.UnreadableCodeCrashes | Classifier.Classify |
