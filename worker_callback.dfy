/**
 * The callback that startPlaying (WebMIDIWorker.js) builds for one playback
 * session: it closes over the notes, tempo, track number, start index and
 * start beat, and over the `scheduledNotes` flag array it owns, one flag per
 * note index.
 */
module WorkerCallback {
  import opened Wrappers
  import opened Notes
  import opened Messages
  import opened MidiBytes
  import opened WindowScan
  import opened SchedulerProxy

  lemma EntriesAppend(s: Score, w: Window, p: seq<nat>, i: nat)
    requires s.tempo > 0.0
    ensures EntriesFor(s, w, p + [i]) == EntriesFor(s, w, p) + NotePair(s, w, i)
  {
    assert (p + [i])[..|p|] == p;
  }

  /**
   * One step of the scan, by the outcome of visiting index i: a late note or
   * a flagged note in the window leaves the picked indices and the flags as
   * they were, a note past the window ends the scan, and any other note is
   * picked and flagged.
   */
  lemma ScanStep(s: Score, flags: seq<bool>, w: Window, lo: nat, i: nat)
    requires s.tempo > 0.0 && |flags| == |s.notes| && lo <= i < |s.notes|
    ensures MarkedUpTo(s, flags, w, lo, i)[i] == flags[i]
    ensures Onset(s, i) < w.playbackTime ==>
      && Picked(s, flags, w, lo, i + 1) == Picked(s, flags, w, lo, i)
      && MarkedUpTo(s, flags, w, lo, i + 1) == MarkedUpTo(s, flags, w, lo, i)
      && ScanEnd(s, w, i) == ScanEnd(s, w, i + 1)
    ensures w.playbackTime <= Onset(s, i) && Onset(s, i) > w.playbackTime + w.requestDuration ==>
      ScanEnd(s, w, i) == i
    ensures w.playbackTime <= Onset(s, i) <= w.playbackTime + w.requestDuration ==>
      && ScanEnd(s, w, i) == ScanEnd(s, w, i + 1)
      && (flags[i] ==>
        && Picked(s, flags, w, lo, i + 1) == Picked(s, flags, w, lo, i)
        && MarkedUpTo(s, flags, w, lo, i + 1) == MarkedUpTo(s, flags, w, lo, i))
      && (!flags[i] ==>
        && Due(s, flags, w, i)
        && Picked(s, flags, w, lo, i + 1) == Picked(s, flags, w, lo, i) + [i]
        && MarkedUpTo(s, flags, w, lo, i + 1) == MarkedUpTo(s, flags, w, lo, i)[i := true])
  {
  }

  /** Emitting a due note i appends its pair to the entries pushed for the indices picked before it. */
  lemma EmitStep(s: Score, flags: seq<bool>, w: Window, lo: nat, i: nat, e0: seq<Entry>, before: seq<Entry>)
    requires s.tempo > 0.0 && |flags| == |s.notes| && lo <= i < |s.notes|
    requires Due(s, flags, w, i)
    requires before == e0 + EntriesFor(s, w, Picked(s, flags, w, lo, i))
    ensures before + NotePair(s, w, i) == e0 + EntriesFor(s, w, Picked(s, flags, w, lo, i + 1))
  {
    EntriesAppend(s, w, Picked(s, flags, w, lo, i), i);
  }

  class PlaybackSession {
    const notes: seq<Note>
    const tempo: real
    const trackNumber: int
    /** startNote and beat; None when the start-playing message left them out. */
    const from: Option<StartPoint>
    /** Whether each note index has been scheduled in this session. */
    const scheduledNotes: array<bool>

    ghost predicate Valid() {
      tempo > 0.0 && scheduledNotes.Length == |notes|
    }

    function Score(): Score {
      WindowScan.Score(notes, tempo, trackNumber, from)
    }

    /** A session starts with one cleared flag per note. */
    constructor (notes: seq<Note>, tempo: real, trackNumber: int, from: Option<StartPoint>)
      requires tempo > 0.0
      ensures Valid() && fresh(scheduledNotes)
      ensures this.notes == notes && this.tempo == tempo && this.trackNumber == trackNumber && this.from == from
      ensures forall i :: 0 <= i < scheduledNotes.Length ==> !scheduledNotes[i]
    {
      this.notes := notes;
      this.tempo := tempo;
      this.trackNumber := trackNumber;
      this.from := from;
      var flags := new bool[|notes|];
      var i := 0;
      while i < |notes|
        invariant 0 <= i <= |notes|
        invariant forall j :: 0 <= j < i ==> !flags[j]
      {
        flags[i] := false;
        i := i + 1;
      }
      this.scheduledNotes := flags;
    }

    /**
     * The body of the scan for a note that is due: push its note-on entry
     * and its note-off entry, then flag it.
     */
    method ScheduleNote(proxy: Proxy, i: nat)
      requires Valid() && i < |notes|
      modifies scheduledNotes, proxy`entries
      ensures proxy.entries == old(proxy.entries) + NotePair(Score(), Window(proxy.playbackTime, proxy.requestDuration), i)
      ensures scheduledNotes[..] == old(scheduledNotes[..])[i := true]
    {
      var s := Score();
      var playbackTime := proxy.playbackTime;
      // beatTime * (notes[i].beat - beat) * 1000
      var absoluteTime := Onset(s, i);
      // beatTime * notes[i].duration * 1000
      var absoluteDuration := LengthMillis(s, i);
      var ch := trackNumber;
      var noteOn := NoteOnBytes(ch, notes[i].noteNumber, notes[i].volume);
      var noteOff := NoteOffBytes(ch, notes[i].noteNumber);
      proxy.ScheduleWithDelay(noteOn, absoluteTime - playbackTime);
      proxy.ScheduleWithDelay(noteOff, absoluteTime + absoluteDuration - playbackTime);
      scheduledNotes[i] := true;
    }

    /**
     * One tick: walks the notes from the start index, skipping late notes and
     * flagged notes, stopping at the first note past the window, and for each
     * other note pushes its note-on and note-off entries and flags it.
     */
    method Callback(proxy: Proxy)
      requires Valid()
      modifies scheduledNotes, proxy`entries
      ensures proxy.entries == old(proxy.entries) +
        Emitted(Score(), old(scheduledNotes[..]), Window(proxy.playbackTime, proxy.requestDuration))
      ensures scheduledNotes[..] ==
        Marked(Score(), old(scheduledNotes[..]), Window(proxy.playbackTime, proxy.requestDuration))
    {
      if from.None? {
        // `let i = startNote` is undefined and `undefined < notes.length` is false: no iteration.
        assert scheduledNotes[..] == Marked(Score(), scheduledNotes[..], Window(proxy.playbackTime, proxy.requestDuration));
        return;
      }
      Scan(proxy, from.value.startNote);
    }

    /** The loop of Callback, from index startNote on. */
    method Scan(proxy: Proxy, startNote: nat)
      requires Valid()
      modifies scheduledNotes, proxy`entries
      ensures var s, w := Score(), Window(proxy.playbackTime, proxy.requestDuration);
        && proxy.entries == old(proxy.entries) +
          EntriesFor(s, w, Picked(s, old(scheduledNotes[..]), w, startNote, ScanEnd(s, w, startNote)))
        && scheduledNotes[..] == MarkedUpTo(s, old(scheduledNotes[..]), w, startNote, ScanEnd(s, w, startNote))
    {
      var s := Score();
      ghost var flags0 := scheduledNotes[..];
      ghost var w := Window(proxy.playbackTime, proxy.requestDuration);
      var requestedDuration := proxy.requestDuration;
      var playbackTime := proxy.playbackTime;
      var i := startNote;
      ghost var e0 := proxy.entries;
      while i < |notes|
        invariant startNote <= i
        invariant ScanEnd(s, w, startNote) == ScanEnd(s, w, i)
        invariant proxy.entries == e0 + EntriesFor(s, w, Picked(s, flags0, w, startNote, i))
        invariant scheduledNotes[..] == MarkedUpTo(s, flags0, w, startNote, i)
      {
        // beatTime * (notes[i].beat - beat) * 1000
        var absoluteTime := Onset(s, i);
        ScanStep(s, flags0, w, startNote, i);
        if absoluteTime < playbackTime {
          // not reached yet: skipped and left unflagged
          i := i + 1;
          continue;
        } else if absoluteTime > playbackTime + requestedDuration {
          // past the requested window: the scan ends
          break;
        } else if scheduledNotes[i] {
          // already scheduled by an earlier tick
          i := i + 1;
          continue;
        }
        EmitStep(s, flags0, w, startNote, i, e0, proxy.entries);
        ScheduleNote(proxy, i);
        i := i + 1;
      }
      assert i == ScanEnd(s, w, startNote);
    }
  }
}
