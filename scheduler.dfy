/**
 * WebMIDIScheduler (WebMIDIPlayer.js): the worker-side timer loop. While it
 * runs, every tick hands a fresh proxy to the session callback, then forwards
 * the entries the callback collected to the player port, each stamped with
 * the tick's time plus its delay. Timer handles and `performance.now()` are
 * not modelled: the current time is a parameter of Start, Tick and
 * ScheduleNowWithDelay, and `_currentLoop !== null` is the flag loopStarted.
 */
module Scheduler {
  import opened Wrappers
  import opened Messages
  import opened MidiBytes
  import opened WindowScan
  import opened SchedulerProxy
  import opened WorkerCallback

  /** The messages a tick at time ts forwards for the entries es, in push order. */
  function Stamped(es: seq<Entry>, ts: real): (r: seq<PlayerMessage>)
    ensures |r| == |es|
    ensures forall k :: 0 <= k < |es| ==> r[k] == OutputWithTimestamp(es[k].data, ts + es[k].delayMillis)
  {
    if es == [] then []
    else Stamped(es[..|es| - 1], ts) + [OutputWithTimestamp(es[|es| - 1].data, ts + es[|es| - 1].delayMillis)]
  }

  /**
   * What a tick forwards for a scan: the k-th emitted note's note-on goes out
   * at the tick's time plus the note's onset past the window start (never
   * before the tick, never later than one interval after it), and its note-off
   * goes out exactly the note's length later.
   */
  lemma ForwardedTimestamps(s: Score, flags: seq<bool>, w: Window, ts: real)
    requires WellFormed(s, flags)
    ensures var ix, out := Selection(s, flags, w), Stamped(Emitted(s, flags, w), ts);
      && |out| == 2 * |ix|
      && forall k :: 0 <= k < |ix| ==>
        && ix[k] < |s.notes|
        && out[2 * k].OutputWithTimestamp? && out[2 * k + 1].OutputWithTimestamp?
        && out[2 * k].data == NoteOnBytes(s.trackNumber, s.notes[ix[k]].noteNumber, s.notes[ix[k]].volume)
        && out[2 * k + 1].data == NoteOffBytes(s.trackNumber, s.notes[ix[k]].noteNumber)
        && out[2 * k].timestamp == ts + Onset(s, ix[k]) - w.playbackTime
        && ts <= out[2 * k].timestamp <= ts + w.requestDuration
        && out[2 * k + 1].timestamp == out[2 * k].timestamp + LengthMillis(s, ix[k])
  {
    EmittedInWindow(s, flags, w);
  }

  class WebMIDIScheduler {
    /** `interval || 50`: the tick period in milliseconds. */
    const interval: real
    /** Messages posted on the player port, oldest first. */
    var playerLog: seq<PlayerMessage>
    var callback: PlaybackSession?
    var isRunning: bool
    /** Whether a timer loop was ever started (`_currentLoop !== null`); stop never clears it. */
    var loopStarted: bool
    var playbackTimeMillis: real
    /** `_playbackStartedTs`: None stands for null. */
    var playbackStartedTs: Option<real>

    ghost predicate Valid()
      reads this
    {
      && (isRunning ==> loopStarted && callback != null && callback.Valid() && playbackStartedTs.Some?)
      && (!isRunning ==> callback == null && playbackTimeMillis == 0.0 && playbackStartedTs.None?)
    }

    /** Not running, no callback, playback time 0 and no start timestamp. */
    predicate Stopped()
      reads this
    {
      !isRunning && callback == null && playbackTimeMillis == 0.0 && playbackStartedTs.None?
    }

    /** A new scheduler is stopped, has never started a loop, and has posted nothing. */
    constructor (interval: real)
      ensures Valid() && Stopped() && !loopStarted && playerLog == []
      ensures interval != 0.0 ==> this.interval == interval
      ensures interval == 0.0 ==> this.interval == 50.0
    {
      this.interval := if interval == 0.0 then 50.0 else interval;
      playerLog := [];
      callback := null;
      isRunning := false;
      loopStarted := false;
      playbackTimeMillis := 0.0;
      playbackStartedTs := None;
    }

    /** Stores the callback, sets the scheduler running from playback time 0, started at now. */
    method Start(cb: PlaybackSession, now: real)
      requires cb.Valid()
      modifies this
      ensures Valid() && isRunning && loopStarted
      ensures callback == cb && playbackTimeMillis == 0.0 && playbackStartedTs == Some(now)
      ensures playerLog == old(playerLog)
    {
      callback := cb;
      isRunning := true;
      playbackTimeMillis := 0.0;
      playbackStartedTs := Some(now);
      loopStarted := true;
    }

    /**
     * Without a loop ever started, nothing changes; otherwise the scheduler is
     * reset to Stopped. On a stopped scheduler it changes nothing, so a second
     * call leaves the state of the first.
     */
    method Stop()
      requires Valid()
      modifies this
      ensures Valid() && Stopped()
      ensures !old(loopStarted) ==> unchanged(this)
      ensures old(Stopped()) ==> unchanged(this)
      ensures loopStarted == old(loopStarted) && playerLog == old(playerLog)
    {
      if loopStarted {
        callback := null;
        playbackTimeMillis := 0.0;
        playbackStartedTs := None;
        isRunning := false;
      }
    }

    /** Posts output-immediately with the data unchanged. */
    method ScheduleNow(data: seq<int>)
      modifies this`playerLog
      ensures playerLog == old(playerLog) + [OutputImmediately(data)]
    {
      playerLog := playerLog + [OutputImmediately(data)];
    }

    /** Posts output-with-timestamp at now plus the delay. */
    method ScheduleNowWithDelay(data: seq<int>, delayMillis: real, now: real)
      modifies this`playerLog
      ensures playerLog == old(playerLog) + [OutputWithTimestamp(data, now + delayMillis)]
    {
      var ts := now + delayMillis;
      playerLog := playerLog + [OutputWithTimestamp(data, ts)];
    }

    /** The forwarding loop of a tick: each entry goes out at ts plus its delay, in push order. */
    method Forward(entries: seq<Entry>, ts: real)
      modifies this`playerLog
      ensures playerLog == old(playerLog) + Stamped(entries, ts)
    {
      var k := 0;
      while k < |entries|
        invariant 0 <= k <= |entries|
        invariant playerLog == old(playerLog) + Stamped(entries[..k], ts)
      {
        assert entries[..k + 1][..k] == entries[..k];
        playerLog := playerLog + [OutputWithTimestamp(entries[k].data, ts + entries[k].delayMillis)];
        k := k + 1;
      }
      assert entries[..k] == entries;
    }

    /**
     * One timer tick at time now: the callback scans the window that starts at
     * the playback time the previous tick left (0 on the first tick) and spans
     * one interval; its entries are forwarded in push order stamped with now
     * plus their delays; then the playback time becomes now minus the start.
     */
    method Tick(now: real)
      requires Valid() && isRunning
      modifies this`playerLog, this`playbackTimeMillis, callback.scheduledNotes
      ensures Valid() && isRunning
      ensures playerLog == old(playerLog) +
        Stamped(Emitted(callback.Score(), old(callback.scheduledNotes[..]), Window(old(playbackTimeMillis), interval)), now)
      ensures callback.scheduledNotes[..] ==
        Marked(callback.Score(), old(callback.scheduledNotes[..]), Window(old(playbackTimeMillis), interval))
      ensures playbackTimeMillis == now - playbackStartedTs.value
    {
      var timestamp := now;
      var entries := Collect();
      Forward(entries, timestamp);
      playbackTimeMillis := timestamp - playbackStartedTs.value;
    }

    /** The first half of a tick: a fresh proxy for the current window, filled by the callback. */
    method Collect() returns (entries: seq<Entry>)
      requires Valid() && isRunning
      modifies callback.scheduledNotes
      ensures entries == Emitted(callback.Score(), old(callback.scheduledNotes[..]), Window(playbackTimeMillis, interval))
      ensures callback.scheduledNotes[..] ==
        Marked(callback.Score(), old(callback.scheduledNotes[..]), Window(playbackTimeMillis, interval))
    {
      var proxy := new Proxy(interval, playbackTimeMillis);
      callback.Callback(proxy);
      entries := proxy.entries;
    }
  }
}
