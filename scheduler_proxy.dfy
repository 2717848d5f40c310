/**
 * WebMIDISchedulerProxy (WebMIDIPlayer.js): the object a scheduler hands to
 * its callback on each tick. It exposes the window of the tick and collects
 * the (bytes, delay) entries the callback schedules.
 */
module SchedulerProxy {
  import opened Messages

  class Proxy {
    /** The entries scheduled so far, in push order. */
    var entries: seq<Entry>
    /** The scheduler's interval: how far past playbackTime this tick looks. */
    const requestDuration: real
    /** The scheduler's playbackTimeMillis when the tick began. */
    const playbackTime: real

    /** Copies the scheduler's interval and playbackTimeMillis, with no entries yet. */
    constructor (interval: real, playbackTimeMillis: real)
      ensures entries == []
      ensures requestDuration == interval && playbackTime == playbackTimeMillis
    {
      entries := [];
      requestDuration := interval;
      playbackTime := playbackTimeMillis;
    }

    /** Appends one entry; nothing is sent until the tick forwards the entries. */
    method ScheduleWithDelay(data: seq<int>, delayMillis: real)
      modifies this`entries
      ensures entries == old(entries) + [Entry(data, delayMillis)]
    {
      entries := entries + [Entry(data, delayMillis)];
    }
  }
}
