# Look-ahead MIDI note scheduler of sakkyoku

sakkyoku is a browser-based song editor. Each track holds a list of notes,
kept in beat order. To play a track, the page posts a `start-playing`
message to a Web Worker. That worker runs a `WebMIDIScheduler` which fires a
low-precision timer. On every tick it hands a `WebMIDISchedulerProxy` to a
per-session callback.

The callback does a look-ahead window scan:
- It walks the notes from a start index and converts each beat into a
  millisecond onset, `(60 / tempo) * (beat - startBeat) * 1000`.
- For every note whose onset lies in the closed window
  `[playbackTime, playbackTime + requestDuration]` and that has not been
  scheduled yet, it pushes a note-on entry and a note-off entry. Both carry
  delays relative to the tick.
- It skips notes that are already late and stops at the first note past the
  window.

The scheduler forwards these entries on its player port as
output-with-timestamp messages, stamped with absolute times. A channel made by
`WebMIDIPlayer.createChannel` would turn such messages into sends on the
selected MIDI output. In the page as written, though, the port the worker
receives comes from `GlobalMIDIPlayer.createChannel` (Track.js:34-36). That
port's handler (Track.js:21-31) acts only on schedule-now and
schedule-with-delay, so it drops the output messages the worker forwards. No
`WebMIDIPlayer` channel is connected to the worker in these files.

This project models that pipeline in Dafny, and with it the editor page's
small decision logic: cookie lookup, track naming, transposition, the mode
toggle and server-response handling.

| module | file | what it is |
|---|---|---|
| `Wrappers` | wrappers.dfy | `Option` and `Result` |
| `MidiBytes` | midi_bytes.dfy | MIDI 1.0 channel voice status bytes, built with JavaScript's 32-bit bitwise or |
| `Notes` | notes.dfy | the `Note` record; sorted insertion, first-match removal and beat search as values; note JSON |
| `Messages` | messages.dfy | worker, player-port and device messages |
| `TrackModel` | track.dfy | class `Track`: the in-place note list and what a track posts to the worker |
| `WindowScan` | window_scan.dfy | what one tick and a whole session emit, as functions; the scan's properties as lemmas |
| `SchedulerProxy` | scheduler_proxy.dfy | class `Proxy`: the tick's window and its entry buffer |
| `WorkerCallback` | worker_callback.dfy | class `PlaybackSession`: the callback closure with its `scheduledNotes` array |
| `Scheduler` | scheduler.dfy | class `WebMIDIScheduler`: start, stop, tick, forwarding |
| `MidiWorker` | worker.dfy | class `Worker`: the worker's `sched` and `onmessage` routing |
| `MidiPlayer` | player.dfy | class `WebMIDIPlayer`: output selection, state check, channel dispatch |
| `Sequencer` | sequencer.dfy | class `Sequencer` with the page logic of the editor |

Modelling conventions:
- Beats and milliseconds are `real`, so the arithmetic is exact.
- The tempo of a session is required to be positive.
- Messages posted on a port are appended to a log field: `Track.posted`,
  `WebMIDIScheduler.playerLog` and `WebMIDIPlayer.device`.
- The current time (`performance.now()`) is a parameter of the operations
  that read it.
- An operation that would throw in the source on a null object returns
  `false` here and changes nothing.

## Model

| member | source | states |
|---|---|---|
| Notes.InsertionPoint | sakkyokuapp/static/sakkyokuapp/javascript/Track.js:166-174 | the index is at most the length, every earlier note starts strictly before the beat, and the note at the index (if any) starts at or after it |
| Notes.InsertionPointUnique | sakkyokuapp/static/sakkyokuapp/javascript/Track.js:166-174 | any index with those two defining facts is the insertion point: the search result is unique |
| Notes.InsertionPointSplitsSorted | sakkyokuapp/static/sakkyokuapp/javascript/Track.js:166-174 | on a beat-sorted list, a note lies before the index exactly when its beat is smaller than the searched beat |
| Notes.Inserted | sakkyokuapp/static/sakkyokuapp/javascript/Track.js:58-68 | adding a note gives one more element, the old multiset plus the note, and puts the note at the insertion point |
| Notes.InsertedSorted | sakkyokuapp/static/sakkyokuapp/javascript/Track.js:58-68 | adding a note to a beat-sorted list keeps it sorted |
| Notes.InsertedPlacement | sakkyokuapp/static/sakkyokuapp/javascript/Track.js:60-66 | the new note follows every strictly earlier note unchanged and precedes every note at the same or a later beat, which all move up one place |
| Notes.InsertedAt | sakkyokuapp/static/sakkyokuapp/javascript/Track.js:60-66 | each position of the new list holds the old note before the slot, the new note at the slot, or the old note one place back after it |
| Notes.InsertedAppends | sakkyokuapp/static/sakkyokuapp/javascript/Track.js:66 | when every note starts strictly earlier, adding appends |
| Notes.FirstMatch | sakkyokuapp/static/sakkyokuapp/javascript/Track.js:77-83 | the result is the first index whose note has the same note number and beat, or None when no note does |
| Notes.FirstMatchUnique | sakkyokuapp/static/sakkyokuapp/javascript/Track.js:77-83 | a matching index with no match before it is the first match |
| Notes.Removed | sakkyokuapp/static/sakkyokuapp/javascript/Track.js:75-84 | with no match the list is unchanged; otherwise exactly one element is gone, namely the first match |
| Notes.RemovedKeepsOrder | sakkyokuapp/static/sakkyokuapp/javascript/Track.js:75-84 | notes before the match stay in place and those after it move down one place, so a sorted list stays sorted |
| Notes.NoteJsonRoundTrip | sakkyokuapp/static/sakkyokuapp/javascript/Track.js:204-211 | loading a note's JSON object gives the note back (volume carried as `velocity`), and the reverse |
| Notes.NoteToJson | sakkyokuapp/static/sakkyokuapp/javascript/Track.js:246-253 | note number, beat and duration are kept, and the volume is stored as `velocity` |
| Notes.NoteFromJson | sakkyokuapp/static/sakkyokuapp/javascript/Track.js:204-211 | `velocity` becomes the volume; the note's JSON object is the one loaded, so loading undoes saving |
| Notes.NotesToJson | sakkyokuapp/static/sakkyokuapp/javascript/Track.js:177-187 | one JSON object per note, in track order |
| Notes.NotesFromJson | sakkyokuapp/static/sakkyokuapp/javascript/Track.js:193-202 | one note per JSON object, in array order |
| Notes.NotesJsonRoundTrip | sakkyokuapp/static/sakkyokuapp/javascript/Track.js:177-202 | loading the saved notes gives the same list in the same order |
| TrackModel.Track.constructor | sakkyokuapp/static/sakkyokuapp/javascript/Track.js:39-53 | a new track has no notes, volume 90, the given instrument and track number, and programChanged false |
| TrackModel.Track.AddNote | sakkyokuapp/static/sakkyokuapp/javascript/Track.js:58-68 | the splice loop leaves exactly the list `Inserted` specifies and returns the note |
| TrackModel.Track.RemoveNote | sakkyokuapp/static/sakkyokuapp/javascript/Track.js:75-84 | the search-and-splice loop leaves exactly the list `Removed` specifies |
| TrackModel.Track.RemoveAll | sakkyokuapp/static/sakkyokuapp/javascript/Track.js:85-87 | the note list is empty |
| TrackModel.Track.FindBeatIndex | sakkyokuapp/static/sakkyokuapp/javascript/Track.js:166-174 | the result is the least index whose note starts at or after the beat, else the length |
| TrackModel.Velocity | sakkyokuapp/static/sakkyokuapp/javascript/Track.js:149 | the velocity is the greatest integer not above 100 * volume |
| TrackModel.Track.JsonObject | sakkyokuapp/static/sakkyokuapp/javascript/Track.js:177-187 | the instrument by name and the volume; loading the object's notes back gives the track's notes in order |
| TrackModel.Track.Play | sakkyokuapp/static/sakkyokuapp/javascript/Track.js:93-130 | posts nothing when a beat is given and no note starts at or after it; otherwise exactly one start-playing message with tempo, notes and track number and no start point |
| TrackModel.Track.PlayFrom | sakkyokuapp/static/sakkyokuapp/javascript/Track.js:93-106 | as Play, but the message also carries the start index and start beat that play computes (0 and 0 without a beat) |
| TrackModel.Track.PlayNote | sakkyokuapp/static/sakkyokuapp/javascript/Track.js:138-144 | previews the MIDI note number with the given duration and volume; the other arguments have no effect |
| TrackModel.Track.PlayMidiNote | sakkyokuapp/static/sakkyokuapp/javascript/Track.js:146-161 | posts the program change unless one was sent, then schedule-now of the note-on with velocity floor(100 * volume), then schedule-with-delay of the note-off after duration * 1000 ms |
| TrackModel.Track.MidiProgramChangeIfNeeded | sakkyokuapp/static/sakkyokuapp/javascript/Track.js:218-226 | posts schedule-now of `[0xC0 \| track, program]` exactly when programChanged is false |
| TrackModel.Track.SetVolume | sakkyokuapp/static/sakkyokuapp/javascript/Track.js:213-216 | the volume is the given one |
| TrackModel.Track.LoadJsonObject | sakkyokuapp/static/sakkyokuapp/javascript/Track.js:193-202 | instrument looked up by name, volume and decoded notes in array order; loading the track's own JSON object leaves its notes and volume as they were |
| TrackModel.PreviewAlwaysSendsProgramChange | sakkyokuapp/static/sakkyokuapp/javascript/Track.js:146-161 | with programChanged false (never set anywhere), a preview posts the program change, the note-on and the delayed note-off, in that order, with their exact bytes |
| TrackModel.PlayWithoutStartPlaysNothing | sakkyokuapp/static/sakkyokuapp/javascript/Track.js:124-129 | on a two-note score, the session Play starts emits nothing on a tick where the session PlayFrom starts emits both notes |
| MidiBytes.BitOr | sakkyokuapp/static/sakkyokuapp/javascript/WebMIDIWorker.js:65-66 | `a \| b` after JavaScript's 32-bit conversion is a signed 32-bit integer |
| MidiBytes.NatOrBound | sakkyokuapp/static/sakkyokuapp/javascript/WebMIDIWorker.js:65-66 | the or of two k-bit numbers is a k-bit number |
| MidiBytes.NatOrDisjoint | sakkyokuapp/static/sakkyokuapp/javascript/WebMIDIWorker.js:65-66 | or-ing a multiple of 2^k with a k-bit number adds them |
| MidiBytes.LowNibbleOr | sakkyokuapp/static/sakkyokuapp/javascript/WebMIDIWorker.js:65-66 | or-ing a non-negative multiple of 16 below 2^31 with a value below 16 adds them |
| MidiBytes.NibbleLayout | sakkyokuapp/static/sakkyokuapp/javascript/WebMIDIWorker.js:65-66 | in that or, the multiple of 16 is the high part and the small value the low nibble |
| MidiBytes.StatusOnChannel | sakkyokuapp/static/sakkyokuapp/javascript/WebMIDIWorker.js:65-66 | for channels 0..15, `base \| ch` is base + ch: the kind in the high nibble, the channel in the low nibble, a byte of 0x80..0xFF |
| MidiBytes.NoteOnBytes | sakkyokuapp/static/sakkyokuapp/javascript/WebMIDIWorker.js:65 | three bytes: the status, then the note number and the velocity |
| MidiBytes.NoteOffBytes | sakkyokuapp/static/sakkyokuapp/javascript/WebMIDIWorker.js:66 | three bytes: the status, then the note number and velocity 0 |
| MidiBytes.ProgramChangeBytes | sakkyokuapp/static/sakkyokuapp/javascript/Track.js:221 | two bytes: the status, then the program |
| MidiBytes.ChannelVoiceBytes | sakkyokuapp/static/sakkyokuapp/javascript/WebMIDIWorker.js:65-66 | on channels 0..15 note-on is `[0x90 + ch, note, velocity]`, note-off `[0x80 + ch, note, 0]` and program change `[0xC0 + ch, program]` |
| MidiBytes.ChannelOverflow | sakkyokuapp/static/sakkyokuapp/javascript/WebMIDIWorker.js:63-65 | track numbers past 15 are not rejected: 0x90 \| 16 is channel 0's note-on and 0x90 \| 32 is a control change |
| WindowScan.ScanEnd | sakkyokuapp/static/sakkyokuapp/javascript/WebMIDIWorker.js:46-54 | the scan stops at the first note from the start on whose onset is past the window and not late, or at the end of the notes |
| WindowScan.Selection | sakkyokuapp/static/sakkyokuapp/javascript/WebMIDIWorker.js:46-58 | every index a tick emits is due: a note in the window whose flag is clear |
| WindowScan.Emitted | sakkyokuapp/static/sakkyokuapp/javascript/WebMIDIWorker.js:42-75 | a tick pushes two entries per emitted index |
| WindowScan.Marked | sakkyokuapp/static/sakkyokuapp/javascript/WebMIDIWorker.js:55-73 | after a tick a flag is set exactly when it was set before or its note was scanned and lies in the window |
| WindowScan.PickedMembers | sakkyokuapp/static/sakkyokuapp/javascript/WebMIDIWorker.js:46-58 | the picked indices of a range are exactly its due indices (in the window, unflagged), strictly ascending |
| WindowScan.SelectionMembers | sakkyokuapp/static/sakkyokuapp/javascript/WebMIDIWorker.js:46-58 | a tick emits exactly the scanned indices that are in the window and unflagged, each once, ascending |
| WindowScan.EntriesShape | sakkyokuapp/static/sakkyokuapp/javascript/WebMIDIWorker.js:68-71 | each emitted index contributes two entries, its note-on and then its note-off |
| WindowScan.EmittedInWindow | sakkyokuapp/static/sakkyokuapp/javascript/WebMIDIWorker.js:48-71 | every emitted note's onset lies in the closed window, its note-on delay is between 0 and requestDuration, and its note-off delay is the note-on delay plus the note's length in ms |
| WindowScan.LateNotLatched | sakkyokuapp/static/sakkyokuapp/javascript/WebMIDIWorker.js:49-51 | a late note is not emitted and its flag is not set, so there is no catch-up |
| WindowScan.MarkedCoversSelection | sakkyokuapp/static/sakkyokuapp/javascript/WebMIDIWorker.js:55-73 | every emitted index is flagged afterwards and no flag is ever cleared |
| WindowScan.OnsetMonotone | sakkyokuapp/static/sakkyokuapp/javascript/WebMIDIWorker.js:48 | with a positive tempo a later beat never has an earlier onset |
| WindowScan.StopIsSafe | sakkyokuapp/static/sakkyokuapp/javascript/WebMIDIWorker.js:52-54 | on sorted notes, no note after the break point lies in the window, so every due note from the start index on is emitted |
| WindowScan.EmittedInOnsetOrder | sakkyokuapp/static/sakkyokuapp/javascript/WebMIDIWorker.js:46-71 | on sorted notes a tick's emitted notes come in non-decreasing onset order |
| WindowScan.Onset | sakkyokuapp/static/sakkyokuapp/javascript/WebMIDIWorker.js:48 | with a positive tempo a note before the start beat has a negative onset, the start beat onset 0, and a later note a positive onset |
| WindowScan.LengthMillis | sakkyokuapp/static/sakkyokuapp/javascript/WebMIDIWorker.js:61 | the length in milliseconds has the sign of the note's duration |
| WindowScan.NothingBeforeOrigin | sakkyokuapp/static/sakkyokuapp/javascript/WebMIDIWorker.js:33-48 | at a non-negative playback time no note before the start beat is emitted |
| WindowScan.SeekStartIsComplete | sakkyokuapp/static/sakkyokuapp/javascript/WebMIDIWorker.js:33-54 | with the start index findBeatIndex gives for the start beat, a tick emits exactly the due notes of the whole track |
| WindowScan.NoStartPointNoScan | sakkyokuapp/static/sakkyokuapp/javascript/WebMIDIWorker.js:33-46 | without startNote the loop never runs: no entries, flags unchanged |
| WindowScan.EmittedAtMostOnce | sakkyokuapp/static/sakkyokuapp/javascript/WebMIDIWorker.js:38-73 | over any run of ticks no index is emitted twice, only indices unflagged at the start are emitted, and each is flagged afterwards |
| WindowScan.Emissions | sakkyokuapp/static/sakkyokuapp/javascript/WebMIDIWorker.js:38-75 | every index a run of ticks emits names a note whose flag was clear when the session started |
| WindowScan.AlwaysLateNeverPlays | sakkyokuapp/static/sakkyokuapp/javascript/WebMIDIWorker.js:49-51 | a note late for every tick of a run is never emitted and never flagged |
| WindowScan.NoStartPointSilentSession | sakkyokuapp/static/sakkyokuapp/javascript/WebMIDIWorker.js:33-46 | a session without a start point emits nothing over any run of ticks |
| WindowScan.ExampleTimes | sakkyokuapp/static/sakkyokuapp/javascript/WebMIDIWorker.js:43-61 | at tempo 120, beats 0 and 1 start at 0 and 500 ms and a one-beat note lasts 500 ms |
| WindowScan.ExampleFirstTick | sakkyokuapp/static/sakkyokuapp/javascript/WebMIDIWorker.js:42-75 | a first 500 ms tick takes both notes, the second exactly at the window's end, and flags both |
| WindowScan.ExamplePairs | sakkyokuapp/static/sakkyokuapp/javascript/WebMIDIWorker.js:61-71 | the example's entries are `[0x90,36,100]` at 0, `[0x80,36,0]` at 500, `[0x90,38,100]` at 500, `[0x80,38,0]` at 1000 |
| WindowScan.ExampleFirstTickEntries | sakkyokuapp/static/sakkyokuapp/javascript/WebMIDIWorker.js:42-75 | the first tick pushes the first note's pair, then the second's |
| WindowScan.ExampleSecondTick | sakkyokuapp/static/sakkyokuapp/javascript/WebMIDIWorker.js:55-57 | a second tick over the flagged notes emits nothing, though the second note is still in its window |
| WorkerCallback.ScanStep | sakkyokuapp/static/sakkyokuapp/javascript/WebMIDIWorker.js:46-58 | visiting an index: a late or flagged note changes nothing, a note past the window ends the scan, and any other note is picked and flagged |
| WorkerCallback.EmitStep | sakkyokuapp/static/sakkyokuapp/javascript/WebMIDIWorker.js:68-73 | pushing a due note's pair extends the entries to those of the indices picked so far |
| WorkerCallback.PlaybackSession.constructor | sakkyokuapp/static/sakkyokuapp/javascript/WebMIDIWorker.js:38-41 | a fresh flag array with one false flag per note |
| WorkerCallback.PlaybackSession.ScheduleNote | sakkyokuapp/static/sakkyokuapp/javascript/WebMIDIWorker.js:60-73 | pushes the note's on and off entries and sets its flag, nothing else |
| WorkerCallback.PlaybackSession.Callback | sakkyokuapp/static/sakkyokuapp/javascript/WebMIDIWorker.js:42-75 | one tick pushes exactly `Emitted` for the proxy's window and leaves exactly the `Marked` flags |
| WorkerCallback.PlaybackSession.Scan | sakkyokuapp/static/sakkyokuapp/javascript/WebMIDIWorker.js:46-74 | the loop with continue and break pushes the entries of the picked indices up to the scan end and flags exactly them |
| MidiWorker.Worker.constructor | sakkyokuapp/static/sakkyokuapp/javascript/WebMIDIWorker.js:3 | no scheduler until a port arrives |
| MidiWorker.Worker.StartPlaying | sakkyokuapp/static/sakkyokuapp/javascript/WebMIDIWorker.js:28-77 | stops the scheduler, then starts it on a fresh session with the message's fields and all flags false |
| MidiWorker.Worker.ScheduleNow | sakkyokuapp/static/sakkyokuapp/javascript/WebMIDIWorker.js:79-82 | forwards the data as output-immediately |
| MidiWorker.Worker.ScheduleWithDelay | sakkyokuapp/static/sakkyokuapp/javascript/WebMIDIWorker.js:84-88 | forwards the data as output-with-timestamp at now plus the delay |
| MidiWorker.Worker.OnMessage | sakkyokuapp/static/sakkyokuapp/javascript/WebMIDIWorker.js:5-26 | a port makes a new stopped scheduler with interval 500. Start-playing leaves the scheduler running from playback time 0, started at now, on a fresh session with the message's notes, tempo, track number and start point and every flag clear, and posts nothing. Schedule-now and schedule-with-delay post their message and leave the scheduler's running state, callback, playback time and start timestamp as they were, so a preview does not disturb a playing session. The three fail only without a scheduler; anything else changes nothing |
| SchedulerProxy.Proxy.constructor | sakkyokuapp/static/sakkyokuapp/javascript/WebMIDIPlayer.js:151-157 | requestDuration is the interval, playbackTime the scheduler's playback time, and there are no entries |
| SchedulerProxy.Proxy.ScheduleWithDelay | sakkyokuapp/static/sakkyokuapp/javascript/WebMIDIPlayer.js:159-164 | appends exactly one entry and sends nothing |
| Scheduler.Stamped | sakkyokuapp/static/sakkyokuapp/javascript/WebMIDIPlayer.js:142-144 | one output-with-timestamp per entry, in push order, at the tick's time plus the entry's delay |
| Scheduler.ForwardedTimestamps | sakkyokuapp/static/sakkyokuapp/javascript/WebMIDIPlayer.js:136-147 | a tick forwards two messages per emitted note: the note-on at tick time plus its onset past the window start (between the tick time and one interval later) and the note-off exactly the note's length after it |
| Scheduler.WebMIDIScheduler.constructor | sakkyokuapp/static/sakkyokuapp/javascript/WebMIDIPlayer.js:90-100 | interval `interval \|\| 50`, not running, no callback, playback time 0, no start timestamp, no loop |
| Scheduler.WebMIDIScheduler.Start | sakkyokuapp/static/sakkyokuapp/javascript/WebMIDIPlayer.js:102-108 | stores the callback, running, playback time 0, start timestamp now |
| Scheduler.WebMIDIScheduler.Stop | sakkyokuapp/static/sakkyokuapp/javascript/WebMIDIPlayer.js:110-118 | no change if no loop was ever started; otherwise reset to stopped; on a stopped scheduler no change, so stopping twice equals stopping once |
| Scheduler.WebMIDIScheduler.ScheduleNow | sakkyokuapp/static/sakkyokuapp/javascript/WebMIDIPlayer.js:120-125 | posts output-immediately with the data unchanged |
| Scheduler.WebMIDIScheduler.ScheduleNowWithDelay | sakkyokuapp/static/sakkyokuapp/javascript/WebMIDIPlayer.js:127-134 | posts output-with-timestamp at now plus the delay |
| Scheduler.WebMIDIScheduler.Forward | sakkyokuapp/static/sakkyokuapp/javascript/WebMIDIPlayer.js:142-144 | the forwarding loop posts exactly `Stamped` of the entries |
| Scheduler.WebMIDIScheduler.Collect | sakkyokuapp/static/sakkyokuapp/javascript/WebMIDIPlayer.js:137-140 | a fresh proxy for the current window collects exactly `Emitted`, and the flags become the `Marked` ones |
| Scheduler.WebMIDIScheduler.Tick | sakkyokuapp/static/sakkyokuapp/javascript/WebMIDIPlayer.js:136-147 | scans the window that starts at the previous tick's playback time and lasts one interval, forwards exactly its entries stamped with now, leaves the `Marked` flags, and sets playback time to now minus the start |
| MidiPlayer.LastOutputId | sakkyokuapp/static/sakkyokuapp/javascript/WebMIDIPlayer.js:24-28 | "output-0" when there are no outputs, else the last enumerated id |
| MidiPlayer.WebMIDIPlayer.constructor | sakkyokuapp/static/sakkyokuapp/javascript/WebMIDIPlayer.js:9-12 | no MIDI access and output id "output-0" |
| MidiPlayer.WebMIDIPlayer.AccessGranted | sakkyokuapp/static/sakkyokuapp/javascript/WebMIDIPlayer.js:18-35 | stores the access; with outputs it selects the last one, which then exists; with none it sets "output-0", whatever was selected before |
| MidiPlayer.WebMIDIPlayer.ListOutputPorts | sakkyokuapp/static/sakkyokuapp/javascript/WebMIDIPlayer.js:37-40 | fails with "midi not initialized" without access, else returns the outputs |
| MidiPlayer.WebMIDIPlayer.SetOutputPort | sakkyokuapp/static/sakkyokuapp/javascript/WebMIDIPlayer.js:42-44 | the selected id is the given one |
| MidiPlayer.WebMIDIPlayer.ForceClearOutputQueue | sakkyokuapp/static/sakkyokuapp/javascript/WebMIDIPlayer.js:46-48 | clears the selected output exactly when it exists |
| MidiPlayer.WebMIDIPlayer.OutputImmediately | sakkyokuapp/static/sakkyokuapp/javascript/WebMIDIPlayer.js:50-53 | sends the data on the selected output exactly when it exists |
| MidiPlayer.WebMIDIPlayer.OutputWithTimestamp | sakkyokuapp/static/sakkyokuapp/javascript/WebMIDIPlayer.js:55-58 | sends the data at the timestamp on the selected output exactly when it exists |
| MidiPlayer.WebMIDIPlayer.OnChannelMessage | sakkyokuapp/static/sakkyokuapp/javascript/WebMIDIPlayer.js:71-85 | output-immediately becomes a send, output-with-timestamp a timed send, anything else nothing |
| Sequencer.IndexOf | scripts/src/Sequencer.ts:295 | the first position of the separator |
| Sequencer.Split | scripts/src/Sequencer.ts:295 | at least one piece, and no piece contains the separator |
| Sequencer.SplitJoin | scripts/src/Sequencer.ts:295 | joining the pieces with the separator gives the cookie string back |
| Sequencer.Decimal | scripts/src/Sequencer.ts:262 | a non-empty string of digits with no leading zero: it starts with '0' exactly for 0 |
| Sequencer.DecimalRoundTrip | scripts/src/Sequencer.ts:262 | reading the numeral back gives the number |
| Sequencer.GenerateTrackName | scripts/src/Sequencer.ts:261-263 | the name contains ':'; the text before the first ':' is all digits and reads back as trackID + 1, and the text from that ':' on is ": " and the display name; the numeral has no leading zero |
| Sequencer.FirstMatchIndex | scripts/src/Sequencer.ts:296-303 | None exactly when no trimmed entry starts with `name=`; otherwise the first such entry |
| Sequencer.FirstMatchUnique | scripts/src/Sequencer.ts:296-303 | a matching entry with no match before it is the first match |
| Sequencer.FirstMatchWins | scripts/src/Sequencer.ts:296-303 | once an entry matches, later entries do not change the result |
| Sequencer.CookieLookup | scripts/src/Sequencer.ts:292-306 | a value exactly when the cookie is non-empty and some trimmed entry starts with `name=`; the value is the decoded remainder of the first such entry |
| Sequencer.GetCookie | scripts/src/Sequencer.ts:292-306 | the loop with break returns null for an empty cookie or no match, else the decoded remainder of the first matching entry |
| Sequencer.TransposeKeepsTiming | scripts/src/Sequencer.ts:282-288 | every note number moves by num, unclamped, with beat, duration and volume unchanged; sortedness is kept; transposing by -num restores the track |
| Sequencer.ClassifyResponse | scripts/src/Sequencer.ts:192-199 | an error is '!' followed by its message; JSON starts with '{'; anything else, the empty text included, is invalid |
| Sequencer.Sequencer.constructor | scripts/src/Sequencer.ts:25-34 | track 0 selected, write mode, nothing alerted or requested |
| Sequencer.Sequencer.SetMode | scripts/src/Sequencer.ts:115-127 | no change to the controls when the mode is unchanged; otherwise the mode is stored and read-only or write mode (with the release flag) is shown |
| Sequencer.Sequencer.TransposeCurrentTrack | scripts/src/Sequencer.ts:282-288 | the current track becomes its transposition; the other tracks and fields are unchanged |
| Sequencer.Sequencer.ProcessUploadResponse | scripts/src/Sequencer.ts:187-212 | error and invalid responses are alerted and leave the song alone; a JSON response fills in only the ids that are 0 |
| Sequencer.Sequencer.ProcessImportResponse | scripts/src/Sequencer.ts:214-232 | error and invalid responses are alerted and leave the song alone; a JSON response replaces the song and selects track 0 |
| Sequencer.Sequencer.UploadSong | scripts/src/Sequencer.ts:160-185 | with an empty name, only the alert; otherwise save locally and upload with the csrftoken cookie |
| Sequencer.Sequencer.ReleaseSong | scripts/src/Sequencer.ts:235-242 | with an empty name, only the alert (no release, no upload); otherwise release, then upload |

## Left out

- Transport: the worker and MessageChannel plumbing, `postMessage` and
  `console.log` are left out. Messages are appended to log fields.
- Timers and time: `setInterval`/`clearInterval` are not modelled, and the
  timer handle is reduced to the flag `loopStarted`. `performance.now()` is a
  parameter. A `Tick` is a step any caller may take while the scheduler runs.
- Starting a scheduler that is already running replaces the callback but
  would leave the old interval firing. The model has a single tick stream.
- A port transfer replaces `sched` with a new scheduler. An old scheduler's
  interval would keep running; the model drops it.
- `_tick` forwards through `this.player`, which the scheduler never sets
  (the constructor stores `playerPort`). The model forwards on the player
  port, which is what the message format of the channel calls for.
- The page-side router `GlobalMIDIPlayer` (Track.js:8-36) is not part of this
  model. It owns the port the worker's scheduler posts to, and it passes only
  schedule-now and schedule-with-delay on to a second scheduler. The
  output-immediately and output-with-timestamp messages in
  `WebMIDIScheduler.playerLog` are therefore dropped in the page as written.
  `WebMIDIPlayer.createChannel` is never connected to the worker;
  `OnChannelMessage` models what that channel would do with them.
- `navigator.requestMIDIAccess` is reduced to its success callback
  (`AccessGranted`); the failure path only logs. MIDI outputs are their ids.
  A send or clear on a missing output, which would throw, returns false.
- Web Audio: the gain node and `gain.value = volume / 127` are left out;
  `SetVolume` keeps only the volume field.
- Floating point: times and beats are exact `real`. IEEE rounding of the
  millisecond arithmetic is not modelled, and `Math.floor(100 * volume)` is
  `Floor` on a real.
- WorkerCallback.PlaybackSession.Scan: the onset and length are computed by
  the specification functions `Onset` and `LengthMillis`, which group the
  same product as the source.
- Tempo: the source never checks it. A session requires a positive tempo,
  so the model does not cover the infinite or NaN times that tempo 0 would
  produce.
- MidiWorker.Worker.OnMessage: a handler that meets a null scheduler throws
  a TypeError in the source; here it returns false with nothing changed.
- TrackModel.Track.constructor and TrackModel.Track.LoadJsonObject require
  the instrument id or name to be in the instrument tables. An unknown one
  gives `undefined` in the source, and later use of it throws.
- Instrument tables, `Song` and `JSON.parse` are abstract:
  - The tables are maps.
  - `Song` keeps only name, ids, release flag and the tracks' notes.
  - `Song.release()` is recorded as a request.
  - `JSON.parse` and `Song.loadJSON` results are parameters.
  - An empty song name stands for an empty or null one.
- `jQuery.trim` and `decodeURIComponent` are function parameters of
  `GetCookie`; `document.cookie` is a string parameter.
- Sequencer.Sequencer.TransposeCurrentTrack requires the current index to
  name a track. The source reads `this.tracks[this.index]` unchecked, and an
  out-of-range index throws.
- Sequencer.ts page work is left out: drawing (`setSong`, `drawMain`,
  pianos, grids), track selectors, localStorage autosave, the AJAX call
  itself and the 5-second save timer.
- SongLoader.js and the Django migration are not part of this model.
- Track.js: `loadJSON` only parses and calls `loadJSONObject`, which is
  modelled. `Note.toString` is left out.
- Channels: `0x90 | ch` is modelled for any integer track number. Only
  channels 0..15 yield the intended status byte (`ChannelOverflow` shows
  what happens past 15).

## Findings

| source | as written | input that shows it | evidently intended | confidence | as-written member | corrected member |
|---|---|---|---|---|---|---|
| sakkyokuapp/static/sakkyokuapp/javascript/Track.js:124-129 | `play` computes `startNote` and `beat` but posts start-playing without them; the worker reads `e.startNote` and `e.beat` (WebMIDIWorker.js:33-34), gets `undefined`, and its loop `for (let i=startNote; i<notes.length; …)` never runs, so nothing is ever scheduled | `play()` on a track with notes at beats 0 and 1, tempo 120: the first 500 ms tick emits nothing, where the start point play computed (index 0, beat 0) emits both notes | the message carries `startNote` and `beat`, and the scan starts there | not executed | TrackModel.Track.Play, WindowScan.NoStartPointSilentSession, TrackModel.PlayWithoutStartPlaysNothing | TrackModel.Track.PlayFrom, WindowScan.SeekStartIsComplete |
