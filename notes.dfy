/**
 * The note list of a track (Track.js): the Note record, the beat ordering the
 * editor keeps, the search for a beat's position, insertion and first-match
 * removal as values, and the JSON mapping of notes.
 */
module Notes {
  import opened Wrappers

  /**
   * A note: MIDI note number, onset beat, length in beats, and volume (sent
   * as the note-on velocity by the scheduler; stored as `velocity` in JSON).
   */
  datatype Note = Note(noteNumber: int, beat: real, duration: real, volume: int)

  /** The JSON object of a note. */
  datatype NoteJson = NoteJson(noteNumber: int, beat: real, duration: real, velocity: int)

  /** The beats never decrease along the list. */
  predicate Sorted(s: seq<Note>) {
    forall i, j :: 0 <= i < j < |s| ==> s[i].beat <= s[j].beat
  }

  /**
   * The least index whose note starts at or after `beat`, or |s| when every
   * note starts earlier (Track.findBeatIndex, and the slot Track.addNote
   * splices into).
   */
  function InsertionPoint(s: seq<Note>, beat: real): (k: nat)
    ensures k <= |s|
    ensures forall j :: 0 <= j < k ==> s[j].beat < beat
    ensures k < |s| ==> beat <= s[k].beat
  {
    if |s| == 0 then 0
    else if beat <= s[0].beat then 0
    else 1 + InsertionPoint(s[1..], beat)
  }

  /**
   * The index of Track.findBeatIndex is pinned down by its two defining
   * facts: every earlier note starts before `beat`, and the note at the index
   * (if any) does not.
   */
  lemma InsertionPointUnique(s: seq<Note>, beat: real, i: nat)
    requires i <= |s|
    requires forall j :: 0 <= j < i ==> s[j].beat < beat
    requires i < |s| ==> beat <= s[i].beat
    ensures InsertionPoint(s, beat) == i
  {
  }

  /** On a sorted list, the notes from the index on are exactly those at or after `beat`. */
  lemma InsertionPointSplitsSorted(s: seq<Note>, beat: real)
    requires Sorted(s)
    ensures forall j :: 0 <= j < |s| ==> (j < InsertionPoint(s, beat) <==> s[j].beat < beat)
  {
    var k := InsertionPoint(s, beat);
    forall j | k <= j < |s| ensures beat <= s[j].beat {
      assert s[k].beat <= s[j].beat;
    }
  }

  /** The list after Track.addNote(n). */
  function Inserted(s: seq<Note>, n: Note): (r: seq<Note>)
    ensures |r| == |s| + 1
    ensures multiset(r) == multiset(s) + multiset{n}
    ensures r[InsertionPoint(s, n.beat)] == n
  {
    var k := InsertionPoint(s, n.beat);
    assert s == s[..k] + s[k..];
    s[..k] + [n] + s[k..]
  }

  /** Insertion keeps a sorted list sorted. */
  lemma InsertedSorted(s: seq<Note>, n: Note)
    requires Sorted(s)
    ensures Sorted(Inserted(s, n))
  {
    var k := InsertionPoint(s, n.beat);
    var r := Inserted(s, n);
    InsertedAt(s, n);
    forall i, j | 0 <= i < j < |r| ensures r[i].beat <= r[j].beat {
      if j < k {
        assert r[i] == s[i] && r[j] == s[j];
      } else if j == k {
        assert r[j] == n;
      } else if i < k {
        assert r[i] == s[i] && r[j] == s[j - 1];
        assert s[k].beat <= s[j - 1].beat;
      } else if i == k {
        assert r[i] == n && r[j] == s[j - 1];
        assert s[k].beat <= s[j - 1].beat;
      } else {
        assert r[i] == s[i - 1] && r[j] == s[j - 1];
      }
    }
  }

  /**
   * The new note goes after every strictly earlier note and before every
   * note at the same or a later beat, including all notes already at its own
   * beat; the other notes keep their relative order.
   */
  lemma InsertedPlacement(s: seq<Note>, n: Note)
    requires Sorted(s)
    ensures forall j :: 0 <= j < InsertionPoint(s, n.beat) ==>
      Inserted(s, n)[j] == s[j] && s[j].beat < n.beat
    ensures forall j :: InsertionPoint(s, n.beat) <= j < |s| ==>
      Inserted(s, n)[j + 1] == s[j] && n.beat <= s[j].beat
  {
    var k := InsertionPoint(s, n.beat);
    var r := Inserted(s, n);
    InsertedAt(s, n);
    forall j | 0 <= j < k ensures r[j] == s[j] && s[j].beat < n.beat {
    }
    forall j | k <= j < |s| ensures r[j + 1] == s[j] && n.beat <= s[j].beat {
      assert s[k].beat <= s[j].beat;
    }
  }

  /** Where each element of the inserted list comes from. */
  lemma InsertedAt(s: seq<Note>, n: Note)
    ensures var k := InsertionPoint(s, n.beat);
      forall j :: 0 <= j < |s| + 1 ==>
        Inserted(s, n)[j] == if j < k then s[j] else if j == k then n else s[j - 1]
  {
    var k := InsertionPoint(s, n.beat);
    var r := Inserted(s, n);
    assert r == s[..k] + [n] + s[k..];
    forall j | 0 <= j < |s| + 1
      ensures r[j] == if j < k then s[j] else if j == k then n else s[j - 1]
    {
      if j < k {
        assert r[j] == s[..k][j];
      } else if j > k {
        assert r[j] == s[k..][j - k - 1];
      }
    }
  }

  /** Track.addNote appends when every note starts strictly earlier. */
  lemma InsertedAppends(s: seq<Note>, n: Note)
    requires forall j :: 0 <= j < |s| ==> s[j].beat < n.beat
    ensures Inserted(s, n) == s + [n]
  {
    assert s[..|s|] == s;
  }

  /** The note Track.removeNote looks for: same note number and same beat. */
  predicate Matches(n: Note, noteNumber: int, beat: real) {
    n.noteNumber == noteNumber && n.beat == beat
  }

  /** The index of the first note matching `noteNumber` and `beat`, if any. */
  function FirstMatch(s: seq<Note>, noteNumber: int, beat: real): (r: Option<nat>)
    ensures r.Some? ==> r.value < |s| && Matches(s[r.value], noteNumber, beat)
    ensures r.Some? ==> forall j :: 0 <= j < r.value ==> !Matches(s[j], noteNumber, beat)
    ensures r.None? ==> forall j :: 0 <= j < |s| ==> !Matches(s[j], noteNumber, beat)
  {
    if |s| == 0 then None
    else if Matches(s[0], noteNumber, beat) then Some(0)
    else match FirstMatch(s[1..], noteNumber, beat)
      case None => None
      case Some(k) => Some(k + 1)
  }

  /** The first matching index is pinned down by its defining facts. */
  lemma FirstMatchUnique(s: seq<Note>, noteNumber: int, beat: real, i: nat)
    requires i < |s| && Matches(s[i], noteNumber, beat)
    requires forall j :: 0 <= j < i ==> !Matches(s[j], noteNumber, beat)
    ensures FirstMatch(s, noteNumber, beat) == Some(i)
  {
  }

  /** The list after Track.removeNote(noteNumber, beat, ...). */
  function Removed(s: seq<Note>, noteNumber: int, beat: real): (r: seq<Note>)
    ensures FirstMatch(s, noteNumber, beat).None? ==> r == s
    ensures FirstMatch(s, noteNumber, beat).Some? ==>
      |r| == |s| - 1 && multiset(r) + multiset{s[FirstMatch(s, noteNumber, beat).value]} == multiset(s)
  {
    match FirstMatch(s, noteNumber, beat)
    case None => s
    case Some(k) =>
      assert s == s[..k] + [s[k]] + s[k + 1..];
      s[..k] + s[k + 1..]
  }

  /**
   * Removal keeps the remaining notes in order (so a sorted list stays
   * sorted), drops exactly the first match, and ignores duration and volume.
   */
  lemma RemovedKeepsOrder(s: seq<Note>, noteNumber: int, beat: real)
    ensures FirstMatch(s, noteNumber, beat).Some? ==>
      var k := FirstMatch(s, noteNumber, beat).value;
      && (forall j :: 0 <= j < k ==> Removed(s, noteNumber, beat)[j] == s[j])
      && (forall j :: k < j < |s| ==> Removed(s, noteNumber, beat)[j - 1] == s[j])
    ensures Sorted(s) ==> Sorted(Removed(s, noteNumber, beat))
  {
    match FirstMatch(s, noteNumber, beat)
    case None =>
    case Some(k) =>
      var r := Removed(s, noteNumber, beat);
      assert forall j :: 0 <= j < k ==> r[j] == s[j];
      assert forall j :: k <= j < |r| ==> r[j] == s[j + 1];
  }

  /** Note.getJSONObject: every field is kept, and the volume is stored under `velocity`. */
  function NoteToJson(n: Note): (j: NoteJson)
    ensures j.noteNumber == n.noteNumber && j.beat == n.beat && j.duration == n.duration
    ensures j.velocity == n.volume
  {
    NoteJson(n.noteNumber, n.beat, n.duration, n.volume)
  }

  /** Track.loadNoteJSONObject: the `velocity` field becomes the volume; it undoes NoteToJson. */
  function NoteFromJson(j: NoteJson): (n: Note)
    ensures NoteToJson(n) == j
  {
    Note(j.noteNumber, j.beat, j.duration, j.velocity)
  }

  /** A note survives a trip through its JSON object, and a JSON object through a note. */
  lemma NoteJsonRoundTrip(n: Note, j: NoteJson)
    ensures NoteFromJson(NoteToJson(n)) == n
    ensures NoteToJson(NoteFromJson(j)) == j
    ensures NoteToJson(n).velocity == n.volume
  {
  }

  /** The `notes` array of Track.getJSONObject, one object per note in track order. */
  function NotesToJson(s: seq<Note>): (r: seq<NoteJson>)
    ensures |r| == |s|
    ensures forall i :: 0 <= i < |s| ==> r[i] == NoteToJson(s[i])
  {
    if |s| == 0 then [] else [NoteToJson(s[0])] + NotesToJson(s[1..])
  }

  /** The notes Track.loadJSONObject decodes, in array order. */
  function NotesFromJson(js: seq<NoteJson>): (r: seq<Note>)
    ensures |r| == |js|
    ensures forall i :: 0 <= i < |js| ==> r[i] == NoteFromJson(js[i])
  {
    if |js| == 0 then [] else [NoteFromJson(js[0])] + NotesFromJson(js[1..])
  }

  /** Saving a track's notes and loading them back gives the same list, in the same order. */
  lemma {:induction false} NotesJsonRoundTrip(s: seq<Note>)
    ensures NotesFromJson(NotesToJson(s)) == s
  {
    if |s| > 0 {
      NotesJsonRoundTrip(s[1..]);
      assert NotesToJson(s)[1..] == NotesToJson(s[1..]);
      assert NotesFromJson(NotesToJson(s)) == [NoteFromJson(NoteToJson(s[0]))] + NotesFromJson(NotesToJson(s[1..]));
    }
  }
}
