/**
 * The server's event loop as an ordering of atomic steps. A `World` holds the
 * supervisor's globals together with what the globals do not show: the reader
 * tasks still alive, the exit codes processes have reached, and the next
 * process identity `Popen` will hand out, and the queue items stream
 * subscribers have already taken. Interleavings of request handlers, reader
 * tasks, subscriber ticks and child processes are event sequences; nothing runs
 * at once.
 */
module EventLoop {
  import opened Wrappers
  import opened Supervisor
  import Text
  import Relay
  import Sequences

  /** A reader task is either created but not yet run, or waiting on `readline`. */
  datatype Phase = Scheduled | Reading

  /** `relayed` holds the queue items subscribers have taken off `output_queue`, in the order taken. */
  datatype World = World(
    session: State,
    readers: map<ProcId, Phase>,
    exits: map<ProcId, int>,
    nextPid: nat,
    relayed: seq<string>)

  const Boot := World(Idle, map[], map[], 0, [])

  /** Everything ever put on `output_queue`, in order: what subscribers took, then what is still queued. */
  function Output(w: World): seq<string> {
    w.relayed + w.session.queue
  }

  /** What `stop_teleoperation`'s foreign calls did: the child exited with a code, or a call raised. */
  datatype StopEffect = Terminates(exitCode: int) | StopFails(reason: string)

  datatype Event =
    | StartRequest(kind: Kind, spawnError: Option<string>)
    | StopRequest(effect: StopEffect)
    | ProcessExits(pid: ProcId, code: int)
    | ReaderEnters(pid: ProcId)
    | ReaderReads(pid: ProcId, read: ReadOutcome)
    | StreamTick

  /** `process.poll()`: the exit code once the process has exited. */
  function Poll(w: World, pid: ProcId): Option<int> {
    if pid in w.exits then Some(w.exits[pid]) else None
  }

  /** Records that `pid` exited with `code`, unless it already had. */
  function Exit(w: World, pid: ProcId, code: int): World {
    if pid in w.exits then w else w.(exits := w.exits[pid := code])
  }

  /** Applies one reader step's effect: the new globals, and the reader dropped once it returned. */
  function AfterReader(w: World, pid: ProcId, step: ReaderStep): World {
    w.(session := step.state,
       readers := if step.finished then w.readers - {pid} else w.readers[pid := Reading])
  }

  /**
   * One event. It keeps the world invariant and never hands out an identity
   * twice. Output is never lost or reordered: only a live reader adds to it, at
   * most a line and a failure message at the end; only a subscriber tick takes
   * from the queue, and it moves the head item, unchanged, to what was relayed.
   */
  function Apply(w: World, e: Event): (w': World)
    ensures Inv(w) ==> Inv(w')
    ensures w.nextPid <= w'.nextPid
    ensures Output(w) <= Output(w')
    ensures |Output(w')| <= |Output(w)| + 2
    ensures Output(w') != Output(w) ==> (e.ReaderEnters? || e.ReaderReads?) && e.pid in w.readers
    ensures w.relayed <= w'.relayed
    ensures !e.StreamTick? ==> w'.relayed == w.relayed && w.session.queue <= w'.session.queue
  {
    if e.StreamTick? then RelayTick(w)
    else
      var w' := Produce(w, e);
      OutputFollowsQueue(w, w');
      w'
  }

  /**
   * A start or stop request, a process exit or a reader step. It keeps the world
   * invariant, never takes from the queue, and appends at most a line and a
   * failure message, only through a live reader. A subscriber tick is not one of
   * these and changes nothing here.
   */
  function Produce(w: World, e: Event): (w': World)
    ensures Inv(w) ==> Inv(w')
    ensures w.nextPid <= w'.nextPid
    ensures w'.relayed == w.relayed
    ensures w.session.queue <= w'.session.queue
    ensures |w'.session.queue| <= |w.session.queue| + 2
    ensures w'.session.queue != w.session.queue ==> (e.ReaderEnters? || e.ReaderReads?) && e.pid in w.readers
  {
    match e
    case StartRequest(kind, spawnError) =>
      var spawn := if spawnError.Some? then SpawnRaised(spawnError.value) else Spawned(w.nextPid);
      var h := Start(w.session, kind, spawn);
      if h.reply.Success? then
        World(h.state, w.readers[w.nextPid := Scheduled], w.exits, w.nextPid + 1, w.relayed)
      else w.(session := h.state)
    case StopRequest(Terminates(code)) =>
      var h := Stop(w.session, Terminated);
      if w.session.proc.Some? then Exit(w, w.session.proc.value, code).(session := h.state)
      else w
    case StopRequest(StopFails(reason)) =>
      w.(session := Stop(w.session, StopRaised(reason)).state)
    case ProcessExits(pid, code) =>
      if pid < w.nextPid then Exit(w, pid, code) else w
    case ReaderEnters(pid) =>
      if pid in w.readers && w.readers[pid] == Scheduled then
        AfterReader(w, pid, ReaderGuard(w.session, Poll(w, pid)))
      else w
    case ReaderReads(pid, read) =>
      if pid in w.readers && w.readers[pid] == Reading then
        AfterReader(w, pid, ReaderResume(w.session, pid, read, Poll(w, pid)))
      else w
    case StreamTick => w
  }

  /**
   * One tick of a subscriber's `event_generator`. With the flag up it takes the
   * head item, if any, and relays it; the output as a whole stays the same. With
   * the flag down it yields the end marker, which changes no global.
   */
  function RelayTick(w: World): (w': World)
    ensures Output(w') == Output(w)
    ensures w'.session.proc == w.session.proc && w'.session.shouldStream == w.session.shouldStream
    ensures w'.readers == w.readers && w'.exits == w.exits && w'.nextPid == w.nextPid
    ensures w.session.shouldStream && w.session.queue != [] ==>
              w'.relayed == w.relayed + [w.session.queue[0]] && w'.session.queue == w.session.queue[1..]
    ensures !(w.session.shouldStream && w.session.queue != []) ==> w' == w
  {
    var t := Relay.Poll(w.session.queue, w.session.shouldStream);
    if t.ended || t.out == [] then w
    else
      Sequences.AppendAssociates(w.relayed, t.out, t.rest);
      w.(session := w.session.(queue := t.rest), relayed := w.relayed + t.out)
  }

  /** With the relayed items fixed, output grows exactly as the queue does. */
  lemma OutputFollowsQueue(w: World, w': World)
    requires w'.relayed == w.relayed && w.session.queue <= w'.session.queue
    ensures Output(w) <= Output(w')
    ensures |Output(w')| - |Output(w)| == |w'.session.queue| - |w.session.queue|
    ensures Output(w') != Output(w) ==> w'.session.queue != w.session.queue
  {
    Sequences.PrefixExtends(w.relayed, w.session.queue, w'.session.queue);
  }

  function Run(w: World, events: seq<Event>): World
    decreases |events|
  {
    if events == [] then w else Run(Apply(w, events[0]), events[1..])
  }

  /**
   * What every reachable world satisfies: the streaming flag is only up while a
   * process is held, and every process identity in use was handed out already.
   */
  ghost predicate Inv(w: World) {
    && (w.session.shouldStream ==> w.session.proc.Some?)
    && (w.session.proc.Some? ==> w.session.proc.value < w.nextPid)
    && (forall pid :: pid in w.readers ==> pid < w.nextPid)
    && (forall pid :: pid in w.exits ==> pid < w.nextPid)
  }

  lemma {:induction false} RunKeepsInv(w: World, events: seq<Event>)
    requires Inv(w)
    ensures Inv(Run(w, events))
    decreases |events|
  {
    if events != [] {
      RunKeepsInv(Apply(w, events[0]), events[1..]);
    }
  }

  /** From boot, the flag is never up without a process held. */
  lemma StreamingOnlyWhileHeld(events: seq<Event>)
    ensures var w := Run(Boot, events); w.session.shouldStream ==> Held(w.session)
  {
    RunKeepsInv(Boot, events);
  }

  /**
   * Over any event sequence, output only grows at the end, and subscribers take
   * items in the order they were enqueued: what was relayed before is a prefix
   * of what is relayed after.
   */
  lemma {:induction false} RunOnlyAppends(w: World, events: seq<Event>)
    ensures Output(w) <= Output(Run(w, events))
    ensures w.relayed <= Run(w, events).relayed
    decreases |events|
  {
    if events != [] {
      RunOnlyAppends(Apply(w, events[0]), events[1..]);
    }
  }

  /** A reader that has returned never comes back, so it never adds anything again. */
  lemma FinishedReaderStaysFinished(w: World, e: Event, pid: ProcId)
    requires Inv(w)
    requires pid < w.nextPid && pid !in w.readers
    ensures var w' := Apply(w, e); pid < w'.nextPid && pid !in w'.readers
  {
  }

  /** The step that appends a failure message for a reader is the step in which that reader returns. */
  lemma FailureMessageEndsReader(w: World, pid: ProcId, read: ReadOutcome)
    requires pid in w.readers && w.readers[pid] == Reading
    requires Poll(w, pid).Some? && Poll(w, pid).value != 0
    requires read.ReadRaised? || read.raw == "" || !w.session.shouldStream
    ensures var w' := Apply(w, ReaderReads(pid, read));
            && pid !in w'.readers
            && !Held(w'.session)
            && w'.session.queue[|w'.session.queue| - 1] == FailureMessage(Poll(w, pid).value)
  {
  }

  /**
   * Scenario: a session starts, its process exits with 137 on its own, its
   * reader reaches end of file; the session is idle without any stop and the
   * queue holds exactly one message, which names 137.
   */
  lemma ExitCodeIsReported()
    ensures var w := Run(Boot, [StartRequest(Teleoperate, None), ReaderEnters(0),
                                ProcessExits(0, 137), ReaderReads(0, Line(""))]);
            && !Held(w.session)
            && w.session.queue == [FailureMessage(137)]
            && ExitCodeOf(w.session.queue[0]) == Some(137)
  {
    FailureMessageNamesCode(137);
  }

  /**
   * Scenario: stop terminates the first session (exit code -15) and a second
   * session starts before the first reader sees end of file. That stale reader
   * then ends the second session and enqueues a failure message for -15, while
   * the second session's process has not exited and its reader is still reading.
   */
  lemma StaleReaderEndsNextSession()
    ensures var w := Run(Boot, StaleReaderEvents());
            && !Status(w.session) && !w.session.shouldStream
            && w.session.queue == [FailureMessage(-15)]
            && 1 !in w.exits
            && 1 in w.readers && w.readers[1] == Reading
            && w.nextPid == 2
  {
    var e := StaleReaderEvents();
    StaleReaderStopAndRestart();
    StaleReaderSecondSessionReads();
    StaleReaderEndOfFile();
    assert Run(Boot, e) == StaleReaderEnd();
  }

  /** The stale-reader scenario after the stop: no session, reader 0 still reading, process 0 exited with -15. */
  function StaleReaderStopped(): World {
    World(State(None, false, []), map[0 := Reading], map[0 := -15], 1, [])
  }

  /** ... after the replay started and its reader entered the loop. */
  function StaleReaderRestarted(): World {
    World(State(Some(1), true, []), map[0 := Reading, 1 := Reading], map[0 := -15], 2, [])
  }

  /** ... after reader 0 reached end of file. */
  function StaleReaderEnd(): World {
    World(State(None, false, [FailureMessage(-15)]), map[1 := Reading], map[0 := -15], 2, [])
  }

  lemma StaleReaderStopAndRestart()
    ensures Run(Boot, StaleReaderEvents()) == Run(StaleReaderStopped(), StaleReaderEvents()[3..])
  {
    var e := StaleReaderEvents();
    var w1 := Apply(Boot, e[0]);
    var w2 := Apply(w1, e[1]);
    assert w2.session == State(Some(0), true, []) && w2.readers == map[0 := Reading];
    assert Apply(w2, e[2]) == StaleReaderStopped();
    assert Run(Boot, e) == Run(w1, e[1..]);
    assert Run(w1, e[1..]) == Run(w2, e[2..]);
  }

  lemma StaleReaderSecondSessionReads()
    ensures Run(StaleReaderStopped(), StaleReaderEvents()[3..]) == Run(StaleReaderRestarted(), StaleReaderEvents()[5..])
  {
    var e := StaleReaderEvents();
    var w4 := Apply(StaleReaderStopped(), e[3]);
    assert w4.session == State(Some(1), true, []) && w4.readers == map[0 := Reading, 1 := Scheduled];
    assert Apply(w4, e[4]) == StaleReaderRestarted();
    assert e[3..][1..] == e[4..];
  }

  lemma StaleReaderEndOfFile()
    ensures Run(StaleReaderRestarted(), StaleReaderEvents()[5..]) == StaleReaderEnd()
  {
    var e := StaleReaderEvents();
    assert e[5..] == [ReaderReads(0, Line(""))];
    var w6 := Apply(StaleReaderRestarted(), e[5]);
    assert w6.session == State(None, false, [FailureMessage(-15)]);
    assert w6.readers == map[1 := Reading];
    assert Run(StaleReaderRestarted(), e[5..]) == Run(w6, []);
  }

  function StaleReaderEvents(): seq<Event> {
    [StartRequest(Teleoperate, None), ReaderEnters(0),
     StopRequest(Terminates(-15)),
     StartRequest(Replay("20240101_120000"), None), ReaderEnters(1),
     ReaderReads(0, Line(""))]
  }

  /**
   * Scenario, continued: process 1 was orphaned, not stopped. A third start is
   * accepted while process 1 is still alive, so two control processes run at
   * once, and the orphan's reader, finding the flag up again, relays process 1's
   * output into the third session's stream.
   */
  lemma OrphanOutlivesItsSession(line: string)
    requires line != ""
    ensures var w := Run(Boot, StaleReaderEvents() + [StartRequest(Teleoperate, None), ReaderReads(1, Line(line))]);
            && Status(w.session) && w.session.proc == Some(2)
            && 1 !in w.exits
            && 1 in w.readers && 2 in w.readers
            && w.session.queue == [FailureMessage(-15), Text.Strip(line)]
  {
    StaleReaderEndsNextSession();
    RunSplits(Boot, StaleReaderEvents(), [StartRequest(Teleoperate, None), ReaderReads(1, Line(line))]);
    OrphanRelaysIntoNewSession(Run(Boot, StaleReaderEvents()), line);
  }

  /** From an idle session with reader 1 still reading and process 1 alive: start, then reader 1 reads. */
  lemma OrphanRelaysIntoNewSession(w: World, line: string)
    requires line != ""
    requires !Held(w.session) && w.nextPid == 2
    requires 1 !in w.exits && 1 in w.readers && w.readers[1] == Reading
    ensures var w' := Run(w, [StartRequest(Teleoperate, None), ReaderReads(1, Line(line))]);
            && w'.session.proc == Some(2) && w'.session.shouldStream
            && 1 !in w'.exits
            && 1 in w'.readers && 2 in w'.readers
            && w'.session.queue == w.session.queue + [Text.Strip(line)]
  {
    var w7 := Apply(w, StartRequest(Teleoperate, None));
    assert w7.session.proc == Some(2) && w7.session.shouldStream && w7.readers[1] == Reading;
    var w8 := Apply(w7, ReaderReads(1, Line(line)));
    var events := [StartRequest(Teleoperate, None), ReaderReads(1, Line(line))];
    assert events[1..] == [ReaderReads(1, Line(line))];
    assert Run(w7, events[1..]) == Run(w8, []);
  }

  /**
   * Scenario: the reader reaches end of file before the process has exited, so
   * `poll()` is still `None` and nothing is reset. The process then exits, yet
   * status keeps reporting running, with no reader left to notice, until a stop.
   */
  lemma EndOfFileBeforeExitKeepsRunning()
    ensures var w := Run(Boot, [StartRequest(Teleoperate, None), ReaderEnters(0),
                                ReaderReads(0, Line("")), ProcessExits(0, 0)]);
            && Status(w.session) && w.session.shouldStream
            && 0 in w.exits && w.readers == map[]
            && w.session.queue == []
  {
  }

  /** Running two event sequences one after the other is running their concatenation. */
  lemma {:induction false} RunSplits(w: World, first: seq<Event>, second: seq<Event>)
    ensures Run(w, first + second) == Run(Run(w, first), second)
    decreases |first|
  {
    if first != [] {
      assert (first + second)[0] == first[0];
      assert (first + second)[1..] == first[1..] + second;
      RunSplits(Apply(w, first[0]), first[1..], second);
    } else {
      assert first + second == second;
    }
  }
}
