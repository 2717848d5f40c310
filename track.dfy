/**
 * The Track class of Track.js: a beat-sorted note list edited in place, the
 * messages a track posts to the MIDI worker, and its JSON form.
 */
module TrackModel {
  import opened Wrappers
  import opened Notes
  import opened Messages
  import opened MidiBytes
  import opened WindowScan

  /** An instrument table entry; only these three fields are read. */
  datatype Instrument = Instrument(name: string, displayName: string, programChange: int)

  /** The instrument tables `instrumentArray` and `instrumentNameToID`. */
  datatype InstrumentTable = InstrumentTable(byID: map<int, Instrument>, nameToID: map<string, int>)

  /** The JSON object of a track. */
  datatype TrackJson = TrackJson(instrument: string, volume: real, notes: seq<NoteJson>)

  /** `Math.floor(100 * volume)`: the note-on velocity of a previewed note. */
  function Velocity(volume: real): (v: int)
    ensures v as real <= 100.0 * volume < v as real + 1.0
  {
    (100.0 * volume).Floor
  }

  class Track {
    var notes: seq<Note>
    var instrumentID: int
    var instrument: Instrument
    const trackNumber: int
    var volume: real
    /** Whether a program change was already sent; nothing in the source sets it. */
    var programChanged: bool
    /** Every message this track posted to the MIDI worker, oldest first. */
    var posted: seq<WorkerMessage>

    constructor (instrumentID: int, instruments: InstrumentTable, trackNumber: int)
      requires instrumentID in instruments.byID
      ensures notes == [] && volume == 90.0 && !programChanged && posted == []
      ensures this.instrumentID == instrumentID && instrument == instruments.byID[instrumentID]
      ensures this.trackNumber == trackNumber
    {
      this.volume := 90.0;
      this.notes := [];
      this.instrumentID := instrumentID;
      this.instrument := instruments.byID[instrumentID];
      this.trackNumber := trackNumber;
      this.programChanged := false;
      this.posted := [];
    }

    /** Splices `note` in before the first note at or after its beat. */
    method AddNote(note: Note) returns (added: Note)
      modifies this`notes
      ensures added == note
      ensures notes == Inserted(old(notes), note)
    {
      var i := 0;
      while i < |notes|
        invariant 0 <= i <= |notes| && notes == old(notes)
        invariant forall j :: 0 <= j < i ==> notes[j].beat < note.beat
      {
        if notes[i].beat >= note.beat {
          InsertionPointUnique(notes, note.beat, i);
          notes := notes[..i] + [note] + notes[i..];
          return note;
        }
        i := i + 1;
      }
      InsertionPointUnique(notes, note.beat, i);
      InsertedAppends(notes, note);
      notes := notes + [note];
      return note;
    }

    /** Deletes the first note with this note number and beat; duration and volume are not compared. */
    method RemoveNote(noteNumber: int, beat: real, duration: real, volume: int)
      modifies this`notes
      ensures notes == Removed(old(notes), noteNumber, beat)
    {
      var i := 0;
      while i < |notes|
        invariant 0 <= i <= |notes| && notes == old(notes)
        invariant forall j :: 0 <= j < i ==> !Matches(notes[j], noteNumber, beat)
      {
        if notes[i].noteNumber == noteNumber && notes[i].beat == beat {
          FirstMatchUnique(notes, noteNumber, beat, i);
          notes := notes[..i] + notes[i + 1..];
          return;
        }
        i := i + 1;
      }
    }

    method RemoveAll()
      modifies this`notes
      ensures notes == []
    {
      notes := [];
    }

    /** The index of the first note at or after `beat`, or the length when there is none. */
    method FindBeatIndex(beat: real) returns (i: nat)
      ensures i <= |notes|
      ensures forall j :: 0 <= j < i ==> notes[j].beat < beat
      ensures i < |notes| ==> beat <= notes[i].beat
    {
      i := 0;
      while i < |notes|
        invariant 0 <= i <= |notes|
        invariant forall j :: 0 <= j < i ==> notes[j].beat < beat
      {
        if beat <= notes[i].beat {
          return;
        }
        i := i + 1;
      }
    }

    /**
     * Track.play: nothing is posted when a start beat is given and no note
     * starts at or after it; otherwise one start-playing message carrying the
     * tempo, the notes and the track number, but neither the start index nor
     * the start beat.
     */
    method Play(beat: Option<real>, tempo: real)
      modifies this`posted
      ensures beat.Some? && InsertionPoint(notes, beat.value) == |notes| ==> posted == old(posted)
      ensures !(beat.Some? && InsertionPoint(notes, beat.value) == |notes|) ==>
        posted == old(posted) + [StartPlaying(tempo, notes, trackNumber, None)]
    {
      if beat.Some? {
        var startNote := FindBeatIndex(beat.value);
        InsertionPointUnique(notes, beat.value, startNote);
        if startNote == |notes| {
          return;
        }
      }
      posted := posted + [StartPlaying(tempo, notes, trackNumber, None)];
    }

    /**
     * Track.play as its own locals say it was meant to be: the message also
     * carries the start index it computed and the start beat (index 0 and
     * beat 0 when no beat is given), which the worker reads.
     */
    method PlayFrom(beat: Option<real>, tempo: real)
      modifies this`posted
      ensures beat.Some? && InsertionPoint(notes, beat.value) == |notes| ==> posted == old(posted)
      ensures !(beat.Some? && InsertionPoint(notes, beat.value) == |notes|) ==>
        posted == old(posted) + [StartPlaying(tempo, notes, trackNumber, Some(PlayStart(notes, beat)))]
    {
      var startNote: nat, startBeat: real;
      if beat.Some? {
        startNote := FindBeatIndex(beat.value);
        InsertionPointUnique(notes, beat.value, startNote);
        if startNote == |notes| {
          return;
        }
        startBeat := beat.value;
      } else {
        startNote, startBeat := 0, 0.0;
      }
      posted := posted + [StartPlaying(tempo, notes, trackNumber, Some(StartPoint(startNote, startBeat)))];
    }

    /** Track.playNote previews `midiNoteNumber`; its other arguments are unused. */
    method PlayNote(noteNumber: int, beat: real, duration: real, volume: real, midiNoteNumber: int)
      modifies this`posted
      ensures posted == old(posted) + ProgramChangeMessages() + PreviewMessages(midiNoteNumber, duration, volume)
    {
      PlayMidiNote(midiNoteNumber, duration, volume);
    }

    /**
     * Previews a note: the program change (every time, since programChanged
     * stays false), then a note-on to sound now and a note-off `duration`
     * seconds later.
     */
    method PlayMidiNote(noteNumber: int, duration: real, volume: real)
      modifies this`posted
      ensures posted == old(posted) + ProgramChangeMessages() + PreviewMessages(noteNumber, duration, volume)
    {
      MidiProgramChangeIfNeeded();
      var ch := trackNumber;
      var velocity := Velocity(volume);
      var noteOn := NoteOnBytes(ch, noteNumber, velocity);
      var noteOff := NoteOffBytes(ch, noteNumber);
      posted := posted + [ScheduleNow(noteOn)];
      posted := posted + [ScheduleWithDelay(noteOff, duration * 1000.0)];
    }

    /** The note-on / delayed note-off pair of a preview. */
    function PreviewMessages(noteNumber: int, duration: real, volume: real): seq<WorkerMessage>
      reads this
    {
      [ScheduleNow(NoteOnBytes(trackNumber, noteNumber, Velocity(volume))),
       ScheduleWithDelay(NoteOffBytes(trackNumber, noteNumber), duration * 1000.0)]
    }

    /** The program change a preview sends first unless one was already sent. */
    function ProgramChangeMessages(): seq<WorkerMessage>
      reads this
    {
      if programChanged then []
      else [ScheduleNow(ProgramChangeBytes(trackNumber, instrument.programChange))]
    }

    method MidiProgramChangeIfNeeded()
      modifies this`posted
      ensures posted == old(posted) + ProgramChangeMessages()
    {
      if programChanged {
        return;
      }
      var pc := instrument.programChange;
      var data := ProgramChangeBytes(trackNumber, pc);
      posted := posted + [ScheduleNow(data)];
    }

    method SetVolume(volume: real)
      modifies this`volume
      ensures this.volume == volume
    {
      this.volume := volume;
    }

    /** Track.getJSONObject: the instrument by name, the volume, and one object per note in track order. */
    function JsonObject(): (j: TrackJson)
      reads this
      ensures j.instrument == instrument.name && j.volume == volume
      ensures NotesFromJson(j.notes) == notes
    {
      NotesJsonRoundTrip(notes);
      TrackJson(instrument.name, volume, NotesToJson(notes))
    }

    /**
     * Replaces instrument, volume and notes with those of `j`; loading the
     * track's own JSON object gives back the same notes in the same order.
     */
    method LoadJsonObject(j: TrackJson, instruments: InstrumentTable)
      requires j.instrument in instruments.nameToID
      requires instruments.nameToID[j.instrument] in instruments.byID
      modifies this`instrumentID, this`instrument, this`volume, this`notes
      ensures instrumentID == instruments.nameToID[j.instrument]
      ensures instrument == instruments.byID[instrumentID]
      ensures volume == j.volume
      ensures notes == NotesFromJson(j.notes)
      ensures j == old(JsonObject()) ==> notes == old(notes) && volume == old(volume)
    {
      ghost var before := notes;
      instrumentID := instruments.nameToID[j.instrument];
      instrument := instruments.byID[instrumentID];
      SetVolume(j.volume);
      notes := [];
      var i := 0;
      while i < |j.notes|
        invariant 0 <= i <= |j.notes| && |notes| == i
        invariant forall k :: 0 <= k < i ==> notes[k] == NoteFromJson(j.notes[k])
        invariant instrumentID == instruments.nameToID[j.instrument] && volume == j.volume
        invariant instrument == instruments.byID[instrumentID]
      {
        notes := notes + [NoteFromJson(j.notes[i])];
        i := i + 1;
      }
      NotesJsonRoundTrip(before);
    }
  }

  /** The start point PlayFrom sends. */
  function PlayStart(notes: seq<Note>, beat: Option<real>): StartPoint {
    match beat
    case Some(b) => StartPoint(InsertionPoint(notes, b), b)
    case None => StartPoint(0, 0.0)
  }

  /** Every preview sends its program change, because nothing ever sets programChanged. */
  lemma PreviewAlwaysSendsProgramChange(t: Track, noteNumber: int, duration: real, volume: real)
    requires !t.programChanged
    ensures t.ProgramChangeMessages() + t.PreviewMessages(noteNumber, duration, volume) ==
      [ScheduleNow([BitOr(ProgramChangeBase, t.trackNumber), t.instrument.programChange]),
       ScheduleNow([BitOr(NoteOnBase, t.trackNumber), noteNumber, Velocity(volume)]),
       ScheduleWithDelay([BitOr(NoteOffBase, t.trackNumber), noteNumber, 0], duration * 1000.0)]
  {
  }

  /**
   * The two-note example score (two quarter notes, tempo 120): the session
   * that Track.play starts, without a start point, emits nothing on its
   * first tick, while the session PlayFrom starts (start index 0 and beat 0
   * for a play without a beat) emits both notes on the same tick.
   */
  lemma PlayWithoutStartPlaysNothing()
    ensures var s, w := ExampleScore(), Window(0.0, 500.0);
      && s.from == Some(PlayStart(s.notes, None))
      && Emissions(s.(from := None), [false, false], [w]) == []
      && Emissions(s, [false, false], [w]) == [0, 1]
  {
    var s, w := ExampleScore(), Window(0.0, 500.0);
    NoStartPointSilentSession(s.(from := None), [false, false], [w]);
    ExampleFirstTick();
    assert Emissions(s, [false, false], [w]) == Selection(s, [false, false], w) + Emissions(s, Marked(s, [false, false], w), []);
  }
}
