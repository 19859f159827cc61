/**
 * The session supervisor of the robot server: the three module-level globals
 * `teleoperation_process`, `should_stream` and `output_queue`, the handlers that
 * start, stop and report a session, and the steps of the background reader
 * task `process_output_reader`.
 *
 * Every handler and every reader resumption runs without an `await` between
 * its reads and writes of the globals, so each is one atomic transition here.
 * Foreign calls become parameters: `Popen` is a `SpawnOutcome`, `send_signal`
 * plus `wait` is a `StopOutcome`, `readline` is a `ReadOutcome` and
 * `process.poll()` is an `Option<int>` exit code.
 */
module Supervisor {
  import opened Wrappers
  import Text
  import Sequences

  /** Identity of one spawned child process (Python compares `Popen` objects by identity). */
  type ProcId = nat

  /** Which control-script mode a start handler launches. */
  datatype Kind =
    | Teleoperate
    | Record(uniqueId: string)
    | Replay(recordingId: string)

  /** The globals: the held process, the streaming flag and the output queue (front first). */
  datatype State = State(proc: Option<ProcId>, shouldStream: bool, queue: seq<string>)

  /** The globals as the module initialises them. */
  const Idle := State(None, false, [])

  /** An `HTTPException`: status code and detail text. */
  datatype ApiError = ApiError(status: int, detail: string)

  datatype Reply = Started(kind: Kind) | Stopped

  /** The globals after a handler ran, and what the handler answered. */
  datatype Handled = Handled(state: State, reply: Result<Reply, ApiError>)

  /** What `subprocess.Popen` did: returned a new process, or raised. */
  datatype SpawnOutcome = Spawned(pid: ProcId) | SpawnRaised(reason: string)

  /** What `send_signal(SIGTERM)` followed by `wait()` did. */
  datatype StopOutcome = Terminated | StopRaised(reason: string)

  /** What one `process.stdout.readline` returned; `Line("")` is end of file. */
  datatype ReadOutcome = Line(raw: string) | ReadRaised

  /** The globals after a reader resumption, and whether the reader task has returned. */
  datatype ReaderStep = ReaderStep(state: State, finished: bool)

  /** A process is held: `teleoperation_process is not None`, the test every handler starts with. */
  predicate Held(s: State) {
    s.proc.Some?
  }

  /** `cleanup_teleoperation`: drop the process and stop streaming; the queue is untouched. */
  function Cleanup(s: State): (r: State)
    ensures !Held(r) && !r.shouldStream && r.queue == s.queue
  {
    s.(proc := None, shouldStream := false)
  }

  function BusyDetail(kind: Kind): string {
    if kind.Replay? then "A process is already running" else "Teleoperation is already running"
  }

  function SpawnFailedDetail(kind: Kind, reason: string): string {
    match kind
    case Teleoperate => "Failed to start teleoperation: " + reason
    case Record(_) => "Failed to start recording: " + reason
    case Replay(_) => "Failed to start replay: " + reason
  }

  /**
   * `start_teleoperation`, `start_recording` and `replay_recording`: reject when a
   * process is held; otherwise spawn, hold the process and raise the streaming flag,
   * or roll back to no process and no streaming when the spawn raised.
   */
  function Start(s: State, kind: Kind, spawn: SpawnOutcome): (r: Handled)
    ensures r.state.queue == s.queue
    ensures Held(s) ==> r.state == s && r.reply == Failure(ApiError(400, BusyDetail(kind)))
    ensures !Held(s) ==> (r.reply.Success? <==> spawn.Spawned?)
    ensures r.reply.Success? ==>
              r.reply.value == Started(kind) && r.state.proc == Some(spawn.pid) && r.state.shouldStream
    ensures !Held(s) && spawn.SpawnRaised? ==>
              !Held(r.state) && !r.state.shouldStream
              && r.reply == Failure(ApiError(500, SpawnFailedDetail(kind, spawn.reason)))
  {
    if s.proc.Some? then
      Handled(s, Failure(ApiError(400, BusyDetail(kind))))
    else
      match spawn
      case Spawned(pid) =>
        Handled(s.(proc := Some(pid), shouldStream := true), Success(Started(kind)))
      case SpawnRaised(reason) =>
        Handled(Cleanup(s), Failure(ApiError(500, SpawnFailedDetail(kind, reason))))
  }

  /**
   * `stop_teleoperation`: reject when no process is held; otherwise lower the
   * streaming flag first, then signal and wait, then drop the process.
   */
  function Stop(s: State, outcome: StopOutcome): (r: Handled)
    ensures r.state.queue == s.queue
    ensures !Held(s) ==> r.state == s && r.reply == Failure(ApiError(400, "Teleoperation is not running"))
    ensures Held(s) ==> !r.state.shouldStream
    ensures Held(s) && outcome.Terminated? ==> !Held(r.state) && r.reply == Success(Stopped)
    ensures Held(s) && outcome.StopRaised? ==>
              r.state.proc == s.proc
              && r.reply == Failure(ApiError(500, "Failed to stop teleoperation: " + outcome.reason))
  {
    if s.proc.None? then
      Handled(s, Failure(ApiError(400, "Teleoperation is not running")))
    else
      var quiet := s.(shouldStream := false);
      match outcome
      case Terminated => Handled(quiet.(proc := None), Success(Stopped))
      case StopRaised(reason) =>
        Handled(quiet, Failure(ApiError(500, "Failed to stop teleoperation: " + reason)))
  }

  /**
   * `get_teleoperation_status`: the `running` field. It reports running exactly
   * when a stop would be accepted, and exactly when every start would be refused
   * as busy.
   */
  function Status(s: State): (running: bool)
    ensures running <==> Stop(s, Terminated).reply.Success?
    ensures forall kind: Kind, spawn: SpawnOutcome ::
              running <==> Start(s, kind, spawn).reply == Failure(ApiError(400, BusyDetail(kind)))
  {
    Held(s)
  }

  const FailurePrefix := "Teleoperation failed with exit code "

  /** The message the reader enqueues for a nonzero exit code. */
  function FailureMessage(code: int): string {
    FailurePrefix + Text.IntToString(code)
  }

  /** Reads the exit code back out of a failure message. */
  function ExitCodeOf(message: string): Option<int> {
    if Text.StartsWith(message, FailurePrefix) then Text.ParseInt(message[|FailurePrefix|..])
    else None
  }

  /** A failure message names the exit code it was built from. */
  lemma FailureMessageNamesCode(code: int)
    ensures ExitCodeOf(FailureMessage(code)) == Some(code)
  {
    var m := FailureMessage(code);
    assert m[..|FailurePrefix|] == FailurePrefix;
    assert m[|FailurePrefix|..] == Text.IntToString(code);
    Text.IntToStringRoundTrip(code);
  }

  /**
   * The reader's `finally` block: when the process has exited with a nonzero
   * code, reset the session (whichever session is current) and enqueue the
   * failure message. `exit` is what `process.poll()` returned.
   */
  function ReaderFinally(s: State, exit: Option<int>): (r: State)
    ensures exit.Some? && exit.value != 0 ==>
              !Held(r) && !r.shouldStream && r.queue == s.queue + [FailureMessage(exit.value)]
    ensures !(exit.Some? && exit.value != 0) ==> r == s
  {
    if exit.Some? && exit.value != 0 then
      var c := Cleanup(s);
      c.(queue := c.queue + [FailureMessage(exit.value)])
    else s
  }

  /** The reader's `while should_stream` check: keep reading, or leave through `finally`. */
  function ReaderGuard(s: State, exit: Option<int>): (r: ReaderStep)
    ensures r.finished <==> !s.shouldStream
    ensures r.finished ==> r.state == ReaderFinally(s, exit)
    ensures !r.finished ==> r.state == s
  {
    if s.shouldStream then ReaderStep(s, false) else ReaderStep(ReaderFinally(s, exit), true)
  }

  /**
   * The reader of process `pid` resumes after `readline` returned `read`:
   * a line is enqueued stripped and the loop guard is checked again; end of file
   * resets the session only when `pid` is still the current process and has
   * exited, then leaves through `finally`; an exception resets the session
   * unconditionally, then leaves through `finally`.
   */
  function ReaderResume(s: State, pid: ProcId, read: ReadOutcome, exit: Option<int>): (r: ReaderStep)
    ensures s.queue <= r.state.queue
  {
    match read
    case ReadRaised => ReaderStep(ReaderFinally(Cleanup(s), exit), true)
    case Line(raw) =>
      if raw == "" then
        var s1 := if s.proc == Some(pid) && exit.Some? then Cleanup(s) else s;
        ReaderStep(ReaderFinally(s1, exit), true)
      else
        ReaderGuard(s.(queue := s.queue + [Text.Strip(raw)]), exit)
  }

  /** A non-empty line is enqueued stripped, and reading goes on exactly while the flag is up. */
  lemma LineIsRelayed(s: State, pid: ProcId, raw: string, exit: Option<int>)
    requires raw != ""
    ensures var r := ReaderResume(s, pid, Line(raw), exit);
            && r.state.queue[..|s.queue| + 1] == s.queue + [Text.Strip(raw)]
            && (r.finished <==> !s.shouldStream)
            && (s.shouldStream ==> r.state == s.(queue := s.queue + [Text.Strip(raw)]))
  {
  }

  /**
   * End of file while `pid` is the current process and has exited: the session
   * is idle afterwards; a zero code enqueues nothing, a nonzero code enqueues
   * exactly one failure message, the last item this reader adds.
   */
  lemma EndOfFileOfCurrentProcess(s: State, pid: ProcId, code: int)
    requires s.proc == Some(pid)
    ensures var r := ReaderResume(s, pid, Line(""), Some(code));
            && r.finished && !Held(r.state) && !r.state.shouldStream
            && (code == 0 ==> r.state.queue == s.queue)
            && (code != 0 ==> r.state.queue == s.queue + [FailureMessage(code)])
  {
  }

  /** End of file of a process that is not current, or has not exited, changes nothing unless it failed. */
  lemma EndOfFileGuardedByIdentity(s: State, pid: ProcId, exit: Option<int>)
    requires s.proc != Some(pid) || exit.None?
    requires !(exit.Some? && exit.value != 0)
    ensures ReaderResume(s, pid, Line(""), exit) == ReaderStep(s, true)
  {
  }

  /**
   * The `finally` reset does not check identity: a reader whose own process
   * exited nonzero (for instance terminated by `stop`) ends whatever session is
   * current, lowers the flag and enqueues its failure message, whenever it leaves.
   */
  lemma StaleReaderResetsCurrentSession(s: State, pid: ProcId, read: ReadOutcome, code: int)
    requires s.proc != Some(pid)
    requires code != 0
    requires read.ReadRaised? || read.raw == "" || !s.shouldStream
    ensures var r := ReaderResume(s, pid, read, Some(code));
            && r.finished && !Held(r.state) && !r.state.shouldStream
            && r.state.queue[|r.state.queue| - 1] == FailureMessage(code)
  {
  }

  /** The `except` reset does not check identity either, even when no exit code is known. */
  lemma ReadErrorResetsCurrentSession(s: State, pid: ProcId, exit: Option<int>)
    ensures var r := ReaderResume(s, pid, ReadRaised, exit);
            && r.finished && !Held(r.state) && !r.state.shouldStream
  {
  }

  /** Only the resumption that finishes a reader can add a failure message, and it adds it last. */
  lemma FailureMessageIsLast(s: State, pid: ProcId, read: ReadOutcome, exit: Option<int>)
    ensures var r := ReaderResume(s, pid, read, exit);
            && (!r.finished ==> |r.state.queue| == |s.queue| + (if read.Line? && read.raw != "" then 1 else 0))
            && (r.finished && exit.Some? && exit.value != 0 ==>
                  r.state.queue[|r.state.queue| - 1] == FailureMessage(exit.value))
            && (r.finished && !(exit.Some? && exit.value != 0) ==>
                  |r.state.queue| == |s.queue| + (if read.Line? && read.raw != "" then 1 else 0))
  {
  }

  /** The reader consumes `lines` one resumption at a time until it finishes. */
  function ReadLines(s: State, pid: ProcId, lines: seq<string>, exit: Option<int>): ReaderStep
    decreases |lines|
  {
    if lines == [] then ReaderStep(s, false)
    else
      var step := ReaderResume(s, pid, Line(lines[0]), exit);
      if step.finished then step else ReadLines(step.state, pid, lines[1..], exit)
  }

  function StripAll(lines: seq<string>): (r: seq<string>)
    ensures |r| == |lines|
    ensures forall i :: 0 <= i < |lines| ==> r[i] == Text.Strip(lines[i])
    decreases |lines|
  {
    if lines == [] then [] else [Text.Strip(lines[0])] + StripAll(lines[1..])
  }

  /** While the flag stays up, the reader enqueues every line stripped, in read order. */
  lemma {:induction false} ReadLinesInOrder(s: State, pid: ProcId, lines: seq<string>, exit: Option<int>)
    requires s.shouldStream
    requires forall i :: 0 <= i < |lines| ==> lines[i] != ""
    ensures ReadLines(s, pid, lines, exit) == ReaderStep(s.(queue := s.queue + StripAll(lines)), false)
    decreases |lines|
  {
    if lines != [] {
      var head := Text.Strip(lines[0]);
      var s1 := s.(queue := s.queue + [head]);
      LineIsRelayed(s, pid, lines[0], exit);
      assert ReadLines(s, pid, lines, exit) == ReadLines(s1, pid, lines[1..], exit);
      ReadLinesInOrder(s1, pid, lines[1..], exit);
      var tail := StripAll(lines[1..]);
      assert StripAll(lines) == [head] + tail;
      Sequences.AppendAssociates(s.queue, [head], tail);
    }
  }

  /** Scenario: start, status is running; stop, status is not running. */
  lemma StartStatusStop(pid: ProcId)
    ensures var started := Start(Idle, Teleoperate, Spawned(pid));
            && Status(started.state)
            && var stopped := Stop(started.state, Terminated);
            && stopped.reply == Success(Stopped) && !Status(stopped.state)
  {
  }

  /** Scenario: a second start while the first session runs is rejected with 400. */
  lemma SecondStartRejected(s: State, first: ProcId, second: SpawnOutcome, uniqueId: string)
    ensures var started := Start(s, Teleoperate, Spawned(first));
            var again := Start(started.state, Record(uniqueId), second);
            && again.reply.Failure? && again.reply.error.status == 400
            && again.state == started.state
  {
  }
}
