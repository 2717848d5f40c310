/**
 * The messages that cross the three execution contexts: the page posts
 * WorkerMessages to the MIDI worker, the worker's scheduler posts
 * PlayerMessages to the player's MessagePort, and the player makes
 * DeviceCalls on the selected MIDI output.
 */
module Messages {
  import opened Wrappers
  import opened Notes

  /** Where a playback session starts: the first note index and the beat at time zero. */
  datatype StartPoint = StartPoint(startNote: nat, beat: real)

  /** What the worker's `onmessage` receives. */
  datatype WorkerMessage =
    | PortTransfer
      // an event whose `ports` list is non-empty (the player's channel end)
    | StartPlaying(tempo: real, notes: seq<Note>, trackNumber: int, from: Option<StartPoint>)
      // 'start-playing'; `from` is None when the sender leaves out startNote and beat
    | ScheduleNow(data: seq<int>)
      // 'schedule-now'
    | ScheduleWithDelay(data: seq<int>, delayMillis: real)
      // 'schedule-with-delay'
    | OtherInstruction
      // any other instruction

  /** What the player's channel receives. */
  datatype PlayerMessage =
    | OutputImmediately(data: seq<int>)
    | OutputWithTimestamp(data: seq<int>, timestamp: real)
    | OtherOutput

  /** One entry a scheduler proxy collects: MIDI bytes and their delay after the tick. */
  datatype Entry = Entry(data: seq<int>, delayMillis: real)

  /** A call on the MIDI output whose id is `port`. */
  datatype DeviceCall =
    | Send(port: string, data: seq<int>)
    | SendAt(port: string, data: seq<int>, timestamp: real)
    | ClearQueue(port: string)
}
