# Robot server session supervisor, output relay and camera cache, in Dafny

This project models the decision logic of `lerobot/server/robot_server.py`. That is a FastAPI control plane for a single SO-100 robot arm. The server is meant to run at most one external `control_robot.py` process at a time, for teleoperation, recording or replay; see below for how two can run at once. The server relays that process's console output to a server-sent-event stream. It also serves MJPEG camera feeds from cached OpenCV captures.

The model covers four pieces.

- **Session supervisor** (`supervisor.dfy`, module `Supervisor`). The globals `teleoperation_process`, `should_stream` and `output_queue` form one immutable `State`.
  - The three start handlers are modelled by `Start`.
  - `stop_teleoperation` is modelled by `Stop`.
  - `cleanup_teleoperation` is modelled by `Cleanup`.
  - `get_teleoperation_status` is modelled by `Status`.
  - Each resumption of the reader task `process_output_reader` is modelled by `ReaderGuard`, `ReaderResume` and `ReaderFinally`. A resumption is everything the reader does between two suspensions at `readline`.
  - Foreign calls become inputs: `Popen` succeeding or raising, `send_signal` plus `wait` succeeding or raising, what `readline` returned, and what `poll()` returned.
- **Event loop** (`event_loop.dfy`, module `EventLoop`). A `World` adds what the globals do not show:
  - which reader tasks are still alive;
  - which processes have exited, and with what code;
  - the next process identity;
  - the queue items stream subscribers have already taken.
  Interleavings of handlers, readers, subscriber ticks and child processes are event sequences. There is no real concurrency.
- **Output relay consumer** (`relay.dfy`, module `Relay`). `event_generator` is modelled as a function of the queue and the flag value seen on each 0.1 s tick.
- **Camera cache and listing** (`video.dfy`, `recordings.dfy`).
  - `get_video_capture` is get-or-insert on a map, with a count of opened devices.
  - `generate_frames` is modelled over a sequence of read/encode outcomes.
  - `list_recordings` is modelled over the scanned directory entries.
  - The `--repo-id` strings built by the record and replay handlers are modelled too.

`text.dfy` models the Python string operations the server relies on: `str.strip()` with Python's whitespace set, `startswith`, `replace(old, new, 1)` and `str(int)`. It also has a decimal parser as the partner of `str(int)`.

Behaviour of the code that the proofs make explicit:

- **The end-of-file reset is guarded; the other two resets are not.** The end-of-file branch checks that the reader's process is still the current one. The `except` and `finally` resets do not. Suppose `stop` terminates a process, which exits with -15, and a new session starts. The old reader later leaves through `finally`. It clears the globals of the newer session and enqueues `Teleoperation failed with exit code -15` (`EventLoop.StaleReaderEndsNextSession`). Clearing the globals does not stop the newer process: it is orphaned and keeps running. A further start is then accepted, so two control processes run at once. The orphan's reader finds the flag up again and relays the orphan's output into the new session's stream (`EventLoop.OrphanOutlivesItsSession`).
- **The last line can arrive after the flag drops.** The reader enqueues the line it was reading when the flag dropped. It checks the flag only after the line is enqueued.
- **Leftover lines stay queued.** Lines still queued when a stream ends are not delivered. They stay for the next subscriber.
- **The id returned by `start_recording` is not a replay id.** `start_recording` replies with `so100_<id>`, but replay prepends `so100_` again. The id the listing returns is the one that replays the recording (`Recordings.ReplyIdIsNotReplayId`).

Three more behaviours of the code, modelled as written:

- `get_video_capture` never checks that a device opened, so there is no open error.
- A stopped session's reader reports a failure message for the termination signal's exit code.
- When `poll()` still returns `None` at end of file, the session stays running until `stop`, even after the process exits (`EventLoop.EndOfFileBeforeExitKeepsRunning`).

## Model

| member | source | states |
|---|---|---|
| Supervisor.Start | lerobot/server/robot_server.py:99-138 | Start while a process is held: 400, nothing changes. Otherwise a successful spawn holds the new process and raises the flag. A failed spawn ends with no process, the flag down and 500 with the exception text. No start path touches the queue. The same shape is at :182-224 and :252-288. |
| Supervisor.Stop | lerobot/server/robot_server.py:141-159 | Stop without a process: 400, nothing changes. Otherwise the flag is down afterwards. A completed terminate leaves no process and status not running. A raising terminate keeps the process and answers 500. The queue is untouched. |
| Supervisor.Cleanup | lerobot/server/robot_server.py:57-60 | After cleanup no process is held, the flag is down and the queue is unchanged. |
| Supervisor.Status | lerobot/server/robot_server.py:162-166 | Status reports running exactly when a stop would be accepted, and exactly when every start would be refused with 400. |
| Supervisor.ReaderFinally | lerobot/server/robot_server.py:80-83 | A nonzero exit code resets the session and appends exactly the failure message for that code. Any other poll result changes nothing. |
| Supervisor.ReaderGuard | lerobot/server/robot_server.py:66 | The reader goes on exactly while the flag is up. Otherwise it leaves through `finally`. |
| Supervisor.ReaderResume | lerobot/server/robot_server.py:63-83 | A reader resumption only ever appends to the queue. |
| Supervisor.LineIsRelayed | lerobot/server/robot_server.py:66-76 | A non-empty read appends its stripped text to the queue. The reader continues exactly when the flag was up. |
| Supervisor.EndOfFileOfCurrentProcess | lerobot/server/robot_server.py:70-83 | End of file of the current, exited process leaves the session idle. Exit 0 appends nothing. A nonzero code appends exactly one failure message. |
| Supervisor.EndOfFileGuardedByIdentity | lerobot/server/robot_server.py:70-75 | End of file of a non-current or still-running process, with no failure code, changes nothing. |
| Supervisor.StaleReaderResetsCurrentSession | lerobot/server/robot_server.py:77-83 | A reader of a non-current process that exited nonzero resets the current session when it leaves, with no identity check, and its failure message is the last queue item. |
| Supervisor.ReadErrorResetsCurrentSession | lerobot/server/robot_server.py:77-79 | A `readline` exception resets the current session whatever process it belongs to. |
| Supervisor.FailureMessageIsLast | lerobot/server/robot_server.py:66-83 | A resumption that does not finish appends only its line. A failure message is appended only by the finishing resumption, and as the last item. |
| Supervisor.ReadLinesInOrder | lerobot/server/robot_server.py:66-76 | While the flag stays up, the reader enqueues every line stripped, in read order. |
| Supervisor.FailureMessageNamesCode | lerobot/server/robot_server.py:83 | The exit code can be read back out of the failure message. |
| Supervisor.StartStatusStop | lerobot/server/robot_server.py:99-166 | Start then status reports running. Stop then succeeds and status reports not running. |
| Supervisor.SecondStartRejected | lerobot/server/robot_server.py:182-188 | Start recording while a teleoperation runs answers 400 and keeps the running session. |
| Text.Strip | lerobot/server/robot_server.py:76 | `strip()` returns a slice of its input with only whitespace around it and none at its ends. It is empty exactly when the input is all whitespace. |
| Text.NatToStringRoundTrip | lerobot/server/robot_server.py:83 | Parsing the decimal digits of a natural number gives it back. |
| Text.IntToStringRoundTrip | lerobot/server/robot_server.py:83 | Parsing `str(code)` gives the code back, negative codes included. |
| Text.ReplaceFirstOfPrefix | lerobot/server/robot_server.py:242 | `replace("so100_", "", 1)` on a name that starts with `so100_` drops exactly that prefix. |
| EventLoop.Apply | lerobot/server/robot_server.py:57-159 | Every start and stop handler, reader step, process exit and subscriber tick preserves two facts: the flag is up only while a process is held, and all identities in use were handed out. Output (items relayed to subscribers, then items still queued) is never lost or reordered. Only a live reader adds to it, at most two items at the end. Handlers, readers and exits never take from the queue. A tick with the flag up moves the head item to the relayed items, and otherwise changes nothing (:89-91). |
| EventLoop.Produce | lerobot/server/robot_server.py:57-159 | A start or stop request, a process exit or a reader step keeps the invariant, never takes from the queue, and appends at most two items, only through a live reader. |
| EventLoop.RelayTick | lerobot/server/robot_server.py:89-94 | A subscriber tick with the flag up moves the head item, if any, to the relayed items. Output as a whole is unchanged, and so are the process, the flag and the readers. With the flag down nothing changes. |
| EventLoop.RunKeepsInv | lerobot/server/robot_server.py:57-159 | The invariant holds after any event sequence. |
| EventLoop.StreamingOnlyWhileHeld | lerobot/server/robot_server.py:23-25 | From start-up, `should_stream` is never true without a held process. |
| EventLoop.RunOnlyAppends | lerobot/server/robot_server.py:63-94 | Over any event sequence, output before is a prefix of output after, and subscribers take items in the order they were enqueued. |
| EventLoop.FinishedReaderStaysFinished | lerobot/server/robot_server.py:120-123 | A reader task that has returned never runs again, so it adds nothing more. |
| EventLoop.FailureMessageEndsReader | lerobot/server/robot_server.py:80-83 | The step that appends a reader's failure message is the step in which that reader returns. The session is idle afterwards. |
| EventLoop.ExitCodeIsReported | lerobot/server/robot_server.py:70-83 | A process exiting with 137, then end of file: the session is idle without a stop, and the queue holds one message that names 137. |
| EventLoop.StaleReaderEndsNextSession | lerobot/server/robot_server.py:80-83 | Sequence: stop (exit -15), a new replay, then the old reader's end of file. The globals show no session and the queue holds the -15 failure message, while the replay process has not exited and its reader is still reading. |
| EventLoop.OrphanOutlivesItsSession | lerobot/server/robot_server.py:57-138 | Continuing that sequence: a new start is accepted while the orphaned process 1 is still alive, and process 1's reader relays its next line into the new session's queue. |
| EventLoop.EndOfFileBeforeExitKeepsRunning | lerobot/server/robot_server.py:70-75 | End of file before the process exits resets nothing. After the process exits, status still reports running and no reader is left. |
| Relay.Poll | lerobot/server/robot_server.py:89-94 | One tick yields at most one item. Flag down: the end marker, queue untouched. Flag up: the head item, if any, taken off the front. |
| Relay.Stream | lerobot/server/robot_server.py:88-94 | A subscriber yields at most one thing per tick. The items it received followed by what it left queued are the queue it started from. An ended stream's last yield is the end marker. |
| Relay.StreamDeliversInOrder | lerobot/server/robot_server.py:88-94 | A subscriber gets the queue's first k items in FIFO order, one per tick while the flag is up, then the end marker once. The rest stays queued. |
| Relay.SentinelEndsStream | lerobot/server/robot_server.py:93-94 | The stream ends exactly when some tick sees the flag down. The end marker is then the last item. No more items than ticks. |
| Relay.NextSubscriberContinues | lerobot/server/robot_server.py:89-91 | A second subscriber continues where the first stopped. Together they receive a prefix of the queue, with no loss or repetition. |
| Video.GetVideoCapture | lerobot/server/robot_server.py:34-40 | Returns the cached handle for the id. Only that key is added. Existing entries are never replaced or removed. A hit changes nothing. A miss opens exactly one device. |
| Video.LookupIsIdempotent | lerobot/server/robot_server.py:35-40 | A repeated lookup returns the same handle and leaves the cache as it was. |
| Video.EmptyIsValid | lerobot/server/robot_server.py:28 | The empty start-up cache satisfies the registry invariant: no handles, no opens. |
| Video.LookupKeepsValid | lerobot/server/robot_server.py:34-40 | Every cached handle belongs to its key, handles are distinct opens, and the number of opens equals the number of cached devices. |
| Video.SuccessiveLookupsShareHandle | lerobot/server/robot_server.py:43-44 | Two lookups of one device, one after the other, return the same handle. At most one device open happens between them. |
| Video.DistinctDevicesDistinctHandles | lerobot/server/robot_server.py:34-40 | Different device ids get different opens. |
| Video.GenerateFrames | lerobot/server/robot_server.py:43-54 | The loop yields the reference sequence of parts and reports whether a failed read ended it. The handle comes from the cache. |
| Video.FramesStopAtFailedRead | lerobot/server/robot_server.py:46-48 | Nothing after the first failed read is yielded. |
| Video.FramesSkipFailedEncode | lerobot/server/robot_server.py:50-52 | A failed encode drops only its own frame. |
| Video.FramesAreParts | lerobot/server/robot_server.py:53-54 | Every chunk is `--frame\r\nContent-Type: image/jpeg\r\n\r\n` + image bytes + `\r\n`. There is at most one chunk per read. |
| Video.UnframePart | lerobot/server/robot_server.py:53-54 | Removing the part header and trailer gives back the encoded image. |
| Recordings.CollectExactly | lerobot/server/robot_server.py:233-247 | A recording is collected exactly when some scanned entry is a directory named `so100_...` and describes to it. |
| Recordings.InsertPermutes | lerobot/server/robot_server.py:249 | Insertion adds exactly the one recording. |
| Recordings.InsertKeepsOrder | lerobot/server/robot_server.py:249 | Insertion keeps a newest-first list newest first. |
| Recordings.InsertKeepsTies | lerobot/server/robot_server.py:249 | The inserted recording goes ahead of the others with the same creation time. |
| Recordings.SortNewestFirst | lerobot/server/robot_server.py:249 | The sort is a permutation, ordered by non-increasing creation time. |
| Recordings.SortIsStable | lerobot/server/robot_server.py:249 | Recordings with equal creation time keep their scan order, as Python's stable `sorted(reverse=True)` does. |
| Recordings.ListRecordings | lerobot/server/robot_server.py:227-249 | No cache directory: empty. Otherwise the collected recordings, each as often as collected, newest first. |
| Recordings.ListingIsTheRecordingDirectories | lerobot/server/robot_server.py:232-249 | The listing holds exactly the scanned `so100_` directories, id without the prefix, path under the cache directory. Recordings with equal creation time keep scan order. |
| Recordings.ListedIdReplaysItsDirectory | lerobot/server/robot_server.py:242 | `so100_` + a listed id rebuilds the directory name. Replay's `--repo-id` (:270) names exactly that directory. |
| Recordings.RecordingListsUnderItsUniqueId | lerobot/server/robot_server.py:197-214 | A recording's dataset directory lists under its unique id. Replaying that id names the recorded repository. |
| Recordings.ReplyIdIsNotReplayId | lerobot/server/robot_server.py:214 | Passing the `recording_id` reply of `start_recording` to replay names a different repository than the one recorded. |

## Left out

- HTTP framing is not modelled: FastAPI routing, `EventSourceResponse`, `StreamingResponse`, the static mount and `uvicorn.run`. A handler's answer is a reply or an error with a status code and detail text.
- Process control is abstract. The `Popen` argument lists, `terminate()`, `send_signal`, `wait` and `poll` become event outcomes carrying an integer exit code.
- asyncio is not modelled. The executor offload, `create_task`, the 1 s start delay and the 0.1 s poll sleep become atomic steps and discrete ticks. No timing claims are made.
- Supervisor.Start: a failure after `Popen` returned (for example `create_task` raising) is not a separate case. The globals end the same way as for a failed `Popen`. A possibly orphaned reader or child is not modelled.
- Supervisor.ReaderResume: the two `poll()` calls inside one resumption (end-of-file branch and `finally`) are taken to agree. There is no `await` between them.
- Relay.Stream: lines that arrive while a subscriber is streaming are not interleaved into that subscriber's ticks. The relay takes the queue as it stands at subscription. The event loop interleaves ticks with arrivals, but does not track which subscriber a tick belongs to.
- EventLoop.Apply: a subscriber tick with the flag down yields the end marker and ends that subscriber's generator. No global changes, so it is a no-op here. The set of open subscribers and the end markers they received are not tracked.
- EventLoop.RunOnlyAppends: the prefix property is about all output ever enqueued, relayed items first. The queue alone shrinks on every tick that takes an item.
- Two simultaneous stream subscribers are not modelled, because they split lines unpredictably.
- `print` logging is left out.
- OpenCV is not modelled: `VideoCapture`, `set`, `read` and `imencode` become outcomes. A handle records the requested 640x480 size. Whether the device opened is never checked by the code, so it is not modelled.
- The filesystem is an input: `os.path.exists`, `glob`, `isdir` and `getctime`. The creation time (a float) is an integer sort key.
- Replay naming relies on the control script storing dataset `chrisheninger/<name>` in directory `<name>` of the cache directory. That script is not part of this model.
- `generate_unique_id` reads the wall clock; the unique id is a parameter.
- Video.GetVideoCapture: a lookup is taken as one atomic step. The code runs `generate_frames` on worker threads, so two first requests for one device can both miss the cache, open the device twice, and the second write replaces the first entry. That race is not modelled.
- Video.SuccessiveLookupsShareHandle: the shared handle is proved only for lookups one after the other. Two streams started at the same moment may get different handles, for the reason above.
- The shutdown handler releases every cached capture through a foreign call and is left out.
