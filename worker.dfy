/**
 * The MIDI worker (WebMIDIWorker.js): a module-level `sched`, null until the
 * page transfers the player's port, and the `onmessage` handler that routes
 * the page's messages to it. A handler that calls a method on a null `sched`
 * throws a TypeError; here it returns false and changes nothing.
 */
module MidiWorker {
  import opened Wrappers
  import opened Notes
  import opened Messages
  import opened Scheduler
  import opened WorkerCallback

  class Worker {
    var sched: WebMIDIScheduler?

    ghost predicate Valid()
      reads this, sched
    {
      sched != null ==> sched.Valid()
    }

    constructor ()
      ensures Valid() && sched == null
    {
      sched := null;
    }

    /**
     * startPlaying: stops the scheduler, builds a session with one cleared
     * flag per note, and starts the scheduler on it at time now.
     */
    method StartPlaying(tempo: real, notes: seq<Note>, trackNumber: int, from: Option<StartPoint>, now: real)
      requires Valid() && sched != null && tempo > 0.0
      modifies sched
      ensures Valid() && sched == old(sched)
      ensures sched.isRunning && sched.loopStarted
      ensures sched.playbackTimeMillis == 0.0 && sched.playbackStartedTs == Some(now)
      ensures sched.playerLog == old(sched.playerLog)
      ensures fresh(sched.callback) && fresh(sched.callback.scheduledNotes)
      ensures sched.callback.notes == notes && sched.callback.tempo == tempo
      ensures sched.callback.trackNumber == trackNumber && sched.callback.from == from
      ensures forall i :: 0 <= i < |notes| ==> !sched.callback.scheduledNotes[i]
    {
      sched.Stop();
      var session := new PlaybackSession(notes, tempo, trackNumber, from);
      sched.Start(session, now);
    }

    /** scheduleNow: forwards the data to the scheduler. */
    method ScheduleNow(data: seq<int>)
      requires Valid() && sched != null
      modifies sched`playerLog
      ensures Valid()
      ensures sched.playerLog == old(sched.playerLog) + [OutputImmediately(data)]
    {
      sched.ScheduleNow(data);
    }

    /** scheduleWithDelay: forwards the data and the delay to the scheduler. */
    method ScheduleWithDelay(data: seq<int>, delayMillis: real, now: real)
      requires Valid() && sched != null
      modifies sched`playerLog
      ensures Valid()
      ensures sched.playerLog == old(sched.playerLog) + [OutputWithTimestamp(data, now + delayMillis)]
    {
      sched.ScheduleNowWithDelay(data, delayMillis, now);
    }

    /**
     * onmessage: a port transfer replaces the scheduler by a new one with a
     * 500 ms interval; the three instructions go to their handlers; any other
     * instruction is ignored. ok is false when a handler met a null scheduler.
     */
    method OnMessage(msg: WorkerMessage, now: real) returns (ok: bool)
      requires Valid()
      requires msg.StartPlaying? ==> msg.tempo > 0.0
      modifies this, sched
      ensures Valid()
      ensures msg.PortTransfer? ==>
        ok && fresh(sched) && sched.interval == 500.0 && sched.Stopped() && !sched.loopStarted && sched.playerLog == []
      ensures !msg.PortTransfer? ==> sched == old(sched) && (ok <==> msg.OtherInstruction? || sched != null)
      ensures msg.OtherInstruction? && sched != null ==> unchanged(sched)
      ensures !ok ==> sched == null
      ensures msg.StartPlaying? && ok ==>
        && sched.isRunning && sched.loopStarted
        && sched.playbackTimeMillis == 0.0 && sched.playbackStartedTs == Some(now)
        && sched.playerLog == old(sched.playerLog)
        && fresh(sched.callback) && fresh(sched.callback.scheduledNotes)
        && sched.callback.notes == msg.notes && sched.callback.tempo == msg.tempo
        && sched.callback.trackNumber == msg.trackNumber && sched.callback.from == msg.from
        && forall i :: 0 <= i < |msg.notes| ==> !sched.callback.scheduledNotes[i]
      ensures msg.ScheduleNow? && ok ==>
        sched.playerLog == old(sched.playerLog) + [OutputImmediately(msg.data)]
      ensures msg.ScheduleWithDelay? && ok ==>
        sched.playerLog == old(sched.playerLog) + [OutputWithTimestamp(msg.data, now + msg.delayMillis)]
      ensures (msg.ScheduleNow? || msg.ScheduleWithDelay?) && ok ==>
        && sched.isRunning == old(sched.isRunning) && sched.loopStarted == old(sched.loopStarted)
        && sched.callback == old(sched.callback)
        && sched.playbackTimeMillis == old(sched.playbackTimeMillis)
        && sched.playbackStartedTs == old(sched.playbackStartedTs)
    {
      match msg {
        case PortTransfer =>
          sched := new WebMIDIScheduler(500.0);
          ok := true;
        case StartPlaying(tempo, notes, trackNumber, from) =>
          ok := sched != null;
          if ok {
            StartPlaying(tempo, notes, trackNumber, from, now);
          }
        case ScheduleNow(data) =>
          ok := sched != null;
          if ok {
            ScheduleNow(data);
          }
        case ScheduleWithDelay(data, delayMillis) =>
          ok := sched != null;
          if ok {
            ScheduleWithDelay(data, delayMillis, now);
          }
        case OtherInstruction =>
          ok := true;
      }
    }
  }
}
