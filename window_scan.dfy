/**
 * What one tick of a playback session computes (the callback that
 * WebMIDIWorker.js builds in startPlaying), stated on values: which note
 * indices the scan emits for a window, the proxy entries it pushes, and the
 * flags it leaves set. The imperative callback in PlaybackSession is proved
 * to compute exactly these; the lemmas here state what they guarantee.
 */
module WindowScan {
  import opened Wrappers
  import opened Notes
  import opened Messages
  import opened MidiBytes

  /** The inputs a session's callback closes over. */
  datatype Score = Score(notes: seq<Note>, tempo: real, trackNumber: int, from: Option<StartPoint>)

  /**
   * The window a tick asks for: it starts at the proxy's playbackTime and
   * lasts requestDuration milliseconds (both ends included).
   */
  datatype Window = Window(playbackTime: real, requestDuration: real)

  function WindowEnd(w: Window): real {
    w.playbackTime + w.requestDuration
  }

  /** Tempo is positive and there is one flag per note. */
  predicate WellFormed(s: Score, flags: seq<bool>) {
    s.tempo > 0.0 && |flags| == |s.notes|
  }

  /** The beat that plays at time zero. */
  function Origin(s: Score): real {
    match s.from
    case None => 0.0
    case Some(p) => p.beat
  }

  /** The first index the scan visits. */
  function ScanStart(s: Score): nat {
    match s.from
    case None => 0
    case Some(p) => p.startNote
  }

  /**
   * Milliseconds from playback start to the onset of note i:
   * beatTime * (beat - origin) * 1000. A note before the start beat has a
   * negative onset, the start beat onset 0, a later note a positive one.
   */
  function Onset(s: Score, i: nat): (r: real)
    requires s.tempo > 0.0 && i < |s.notes|
    ensures s.notes[i].beat < Origin(s) ==> r < 0.0
    ensures s.notes[i].beat == Origin(s) ==> r == 0.0
    ensures s.notes[i].beat > Origin(s) ==> r > 0.0
  {
    ScaledSign(60.0 / s.tempo, s.notes[i].beat - Origin(s));
    (60.0 / s.tempo) * (s.notes[i].beat - Origin(s)) * 1000.0
  }

  /** The length of note i in milliseconds: beatTime * duration * 1000, of the sign of the duration. */
  function LengthMillis(s: Score, i: nat): (r: real)
    requires s.tempo > 0.0 && i < |s.notes|
    ensures s.notes[i].duration < 0.0 ==> r < 0.0
    ensures s.notes[i].duration == 0.0 ==> r == 0.0
    ensures s.notes[i].duration > 0.0 ==> r > 0.0
  {
    ScaledSign(60.0 / s.tempo, s.notes[i].duration);
    (60.0 / s.tempo) * s.notes[i].duration * 1000.0
  }

  /** Scaling by a positive factor and by 1000 keeps the sign. */
  lemma ScaledSign(k: real, x: real)
    requires k > 0.0
    ensures x < 0.0 ==> k * x * 1000.0 < 0.0
    ensures x == 0.0 ==> k * x * 1000.0 == 0.0
    ensures x > 0.0 ==> k * x * 1000.0 > 0.0
  {
    if x < 0.0 {
      assert k * x < 0.0;
    } else if x > 0.0 {
      assert k * x > 0.0;
    }
  }

  /** The scan skips note i when its onset is before the window. */
  predicate Late(s: Score, w: Window, i: nat)
    requires s.tempo > 0.0 && i < |s.notes|
  {
    Onset(s, i) < w.playbackTime
  }

  /** The scan stops at note i when it is not late and its onset is past the window. */
  predicate Beyond(s: Score, w: Window, i: nat)
    requires s.tempo > 0.0 && i < |s.notes|
  {
    !Late(s, w, i) && Onset(s, i) > WindowEnd(w)
  }

  predicate InWindow(s: Score, w: Window, i: nat)
    requires s.tempo > 0.0 && i < |s.notes|
  {
    w.playbackTime <= Onset(s, i) <= WindowEnd(w)
  }

  /** The index the scan stops at when it starts at i: the first note from i on that is Beyond, else the end. */
  function ScanEnd(s: Score, w: Window, i: nat): (e: nat)
    requires s.tempo > 0.0
    ensures i <= e
    ensures i <= |s.notes| ==> e <= |s.notes|
    ensures forall j :: i <= j < e ==> j < |s.notes| && !Beyond(s, w, j)
    ensures e < |s.notes| ==> Beyond(s, w, e)
    decreases |s.notes| - i
  {
    if i >= |s.notes| || Beyond(s, w, i) then i else ScanEnd(s, w, i + 1)
  }

  /** Whether the scan visits index j at all. */
  predicate Scanned(s: Score, w: Window, j: nat)
    requires s.tempo > 0.0
  {
    s.from.Some? && ScanStart(s) <= j < ScanEnd(s, w, ScanStart(s))
  }

  /** Index j is emitted if the scan reaches it: it lies in the window and is not flagged yet. */
  predicate Due(s: Score, flags: seq<bool>, w: Window, j: nat)
    requires s.tempo > 0.0
  {
    j < |s.notes| && j < |flags| && InWindow(s, w, j) && !flags[j]
  }

  /** The due indices in [lo, hi), ascending. */
  function Picked(s: Score, flags: seq<bool>, w: Window, lo: nat, hi: nat): seq<nat>
    requires s.tempo > 0.0
    decreases hi - lo
  {
    if hi <= lo then []
    else Picked(s, flags, w, lo, hi - 1) + (if Due(s, flags, w, hi - 1) then [hi - 1] else [])
  }

  /** The note indices one tick emits, in emission order; each is due. */
  function Selection(s: Score, flags: seq<bool>, w: Window): (r: seq<nat>)
    requires s.tempo > 0.0
    ensures forall j :: j in r ==> Due(s, flags, w, j)
  {
    if s.from.None? then []
    else
      PickedMembers(s, flags, w, ScanStart(s), ScanEnd(s, w, ScanStart(s)));
      Picked(s, flags, w, ScanStart(s), ScanEnd(s, w, ScanStart(s)))
  }

  function OnEntry(s: Score, w: Window, i: nat): Entry
    requires s.tempo > 0.0 && i < |s.notes|
  {
    Entry(NoteOnBytes(s.trackNumber, s.notes[i].noteNumber, s.notes[i].volume), Onset(s, i) - w.playbackTime)
  }

  function OffEntry(s: Score, w: Window, i: nat): Entry
    requires s.tempo > 0.0 && i < |s.notes|
  {
    Entry(NoteOffBytes(s.trackNumber, s.notes[i].noteNumber), Onset(s, i) + LengthMillis(s, i) - w.playbackTime)
  }

  /** The two entries pushed for note i: the note-on, then the note-off. */
  function NotePair(s: Score, w: Window, i: nat): seq<Entry>
    requires s.tempo > 0.0
  {
    if i < |s.notes| then [OnEntry(s, w, i), OffEntry(s, w, i)] else []
  }

  function EntriesFor(s: Score, w: Window, ix: seq<nat>): seq<Entry>
    requires s.tempo > 0.0
  {
    if ix == [] then [] else EntriesFor(s, w, ix[..|ix| - 1]) + NotePair(s, w, ix[|ix| - 1])
  }

  /** The proxy entries one tick pushes: two per emitted note. */
  function Emitted(s: Score, flags: seq<bool>, w: Window): (r: seq<Entry>)
    requires s.tempo > 0.0
    ensures |r| == 2 * |Selection(s, flags, w)|
  {
    var ix := Selection(s, flags, w);
    assert forall k :: 0 <= k < |ix| ==> ix[k] in ix;
    EntriesShape(s, w, ix);
    EntriesFor(s, w, ix)
  }

  /** The flags after a scan of [lo, hi): a note there in the window is flagged, every other flag is kept. */
  function MarkedUpTo(s: Score, flags: seq<bool>, w: Window, lo: nat, hi: nat): (r: seq<bool>)
    requires s.tempo > 0.0
    ensures |r| == |flags|
  {
    seq(|flags|, j requires 0 <= j < |flags| =>
      flags[j] || (j < |s.notes| && lo <= j < hi && InWindow(s, w, j)))
  }

  /** The flags after one tick: a scanned note in the window is flagged, every other flag is kept. */
  function Marked(s: Score, flags: seq<bool>, w: Window): (r: seq<bool>)
    requires s.tempo > 0.0
    ensures |r| == |flags|
    ensures forall j :: 0 <= j < |flags| ==>
      r[j] == (flags[j] || (j < |s.notes| && Scanned(s, w, j) && InWindow(s, w, j)))
  {
    if s.from.None? then flags else MarkedUpTo(s, flags, w, ScanStart(s), ScanEnd(s, w, ScanStart(s)))
  }

  // ---------------------------------------------------------------------
  // What one tick emits

  /** Picked holds exactly the due indices of [lo, hi), strictly ascending. */
  lemma {:induction false} PickedMembers(s: Score, flags: seq<bool>, w: Window, lo: nat, hi: nat)
    requires s.tempo > 0.0
    ensures forall j :: j in Picked(s, flags, w, lo, hi) <==> lo <= j < hi && Due(s, flags, w, j)
    ensures forall a, b :: 0 <= a < b < |Picked(s, flags, w, lo, hi)| ==>
      Picked(s, flags, w, lo, hi)[a] < Picked(s, flags, w, lo, hi)[b]
    decreases hi - lo
  {
    if hi > lo {
      PickedMembers(s, flags, w, lo, hi - 1);
      var p := Picked(s, flags, w, lo, hi - 1);
      var r := Picked(s, flags, w, lo, hi);
      assert r == p + (if Due(s, flags, w, hi - 1) then [hi - 1] else []);
      forall a, b | 0 <= a < b < |r| ensures r[a] < r[b] {
        if b >= |p| {
          assert r[a] == p[a] && p[a] in p;
        }
      }
    }
  }

  /** A tick emits exactly the scanned indices that are due, each once, in ascending order. */
  lemma SelectionMembers(s: Score, flags: seq<bool>, w: Window)
    requires s.tempo > 0.0
    ensures forall j :: j in Selection(s, flags, w) <==> Scanned(s, w, j) && Due(s, flags, w, j)
    ensures forall a, b :: 0 <= a < b < |Selection(s, flags, w)| ==>
      Selection(s, flags, w)[a] < Selection(s, flags, w)[b]
  {
    if s.from.Some? {
      PickedMembers(s, flags, w, ScanStart(s), ScanEnd(s, w, ScanStart(s)));
    }
  }

  /** Each emitted index contributes a note-on entry followed by its note-off entry. */
  lemma {:induction false} EntriesShape(s: Score, w: Window, ix: seq<nat>)
    requires s.tempo > 0.0
    requires forall k :: 0 <= k < |ix| ==> ix[k] < |s.notes|
    ensures |EntriesFor(s, w, ix)| == 2 * |ix|
    ensures forall k :: 0 <= k < |ix| ==>
      EntriesFor(s, w, ix)[2 * k] == OnEntry(s, w, ix[k]) &&
      EntriesFor(s, w, ix)[2 * k + 1] == OffEntry(s, w, ix[k])
    decreases |ix|
  {
    if ix != [] {
      var init := ix[..|ix| - 1];
      EntriesShape(s, w, init);
      var e := EntriesFor(s, w, ix);
      assert e == EntriesFor(s, w, init) + NotePair(s, w, ix[|ix| - 1]);
      forall k | 0 <= k < |ix|
        ensures e[2 * k] == OnEntry(s, w, ix[k]) && e[2 * k + 1] == OffEntry(s, w, ix[k])
      {
        if k < |ix| - 1 {
          assert ix[k] == init[k];
        }
      }
    }
  }

  /**
   * Window containment: every note-on entry of a tick is for a note whose
   * onset lies in the closed window, so its delay after the tick is between
   * 0 and requestDuration; the matching note-off follows it by the note's
   * length in milliseconds.
   */
  lemma EmittedInWindow(s: Score, flags: seq<bool>, w: Window)
    requires WellFormed(s, flags)
    ensures var ix := Selection(s, flags, w);
      && |Emitted(s, flags, w)| == 2 * |ix|
      && forall k :: 0 <= k < |ix| ==>
        && ix[k] < |s.notes|
        && w.playbackTime <= Onset(s, ix[k]) <= WindowEnd(w)
        && Emitted(s, flags, w)[2 * k] == OnEntry(s, w, ix[k])
        && Emitted(s, flags, w)[2 * k + 1] == OffEntry(s, w, ix[k])
        && 0.0 <= Emitted(s, flags, w)[2 * k].delayMillis <= w.requestDuration
        && Emitted(s, flags, w)[2 * k + 1].delayMillis ==
           Emitted(s, flags, w)[2 * k].delayMillis + LengthMillis(s, ix[k])
  {
    var ix := Selection(s, flags, w);
    SelectionMembers(s, flags, w);
    assert forall k :: 0 <= k < |ix| ==> ix[k] in ix;
    EntriesShape(s, w, ix);
  }

  /** A late note is not emitted and its flag is left as it was: the scan never catches it up. */
  lemma LateNotLatched(s: Score, flags: seq<bool>, w: Window, j: nat)
    requires WellFormed(s, flags) && j < |s.notes| && Late(s, w, j)
    ensures j !in Selection(s, flags, w)
    ensures Marked(s, flags, w)[j] == flags[j]
  {
    SelectionMembers(s, flags, w);
  }

  /** A tick flags every index it emits, and clears no flag. */
  lemma MarkedCoversSelection(s: Score, flags: seq<bool>, w: Window)
    requires WellFormed(s, flags)
    ensures forall j :: j in Selection(s, flags, w) ==> j < |flags| && Marked(s, flags, w)[j]
    ensures forall j :: 0 <= j < |flags| && flags[j] ==> Marked(s, flags, w)[j]
  {
    SelectionMembers(s, flags, w);
  }

  // ---------------------------------------------------------------------
  // Beat order: the early stop, emission order, and the start point

  lemma ScaleMono(k: real, x: real, y: real)
    requires k > 0.0 && x <= y
    ensures k * x * 1000.0 <= k * y * 1000.0
  {
    assert k * y - k * x == k * (y - x);
  }

  /** With a positive tempo, a later beat never has an earlier onset. */
  lemma OnsetMonotone(s: Score, i: nat, j: nat)
    requires s.tempo > 0.0 && i < |s.notes| && j < |s.notes|
    requires s.notes[i].beat <= s.notes[j].beat
    ensures Onset(s, i) <= Onset(s, j)
  {
    ScaleMono(60.0 / s.tempo, s.notes[i].beat - Origin(s), s.notes[j].beat - Origin(s));
  }

  /**
   * The early stop is safe: on beat-sorted notes with a positive tempo, no
   * note after the index where the scan breaks lies in the window, so the
   * tick emits every due index from the start index on.
   */
  lemma StopIsSafe(s: Score, flags: seq<bool>, w: Window)
    requires WellFormed(s, flags) && Sorted(s.notes) && s.from.Some?
    ensures forall j :: ScanEnd(s, w, ScanStart(s)) <= j < |s.notes| ==> !InWindow(s, w, j)
    ensures forall j :: ScanStart(s) <= j && Due(s, flags, w, j) ==> j in Selection(s, flags, w)
  {
    var e := ScanEnd(s, w, ScanStart(s));
    forall j | e <= j < |s.notes| ensures !InWindow(s, w, j) {
      OnsetMonotone(s, e, j);
    }
    SelectionMembers(s, flags, w);
  }

  /**
   * On beat-sorted notes a tick emits its notes in onset order, so the
   * note-on delays never decrease (the note-offs in between need not be in
   * order).
   */
  lemma EmittedInOnsetOrder(s: Score, flags: seq<bool>, w: Window)
    requires WellFormed(s, flags) && Sorted(s.notes)
    ensures forall k :: 0 <= k < |Selection(s, flags, w)| ==> Selection(s, flags, w)[k] < |s.notes|
    ensures forall a, b :: 0 <= a < b < |Selection(s, flags, w)| ==>
      Onset(s, Selection(s, flags, w)[a]) <= Onset(s, Selection(s, flags, w)[b])
  {
    var ix := Selection(s, flags, w);
    SelectionMembers(s, flags, w);
    assert forall k :: 0 <= k < |ix| ==> ix[k] in ix;
    forall a, b | 0 <= a < b < |ix|
      ensures Onset(s, ix[a]) <= Onset(s, ix[b])
    {
      assert ix[a] in ix && ix[b] in ix;
      assert ix[a] < ix[b];
      assert s.notes[ix[a]].beat <= s.notes[ix[b]].beat;
      OnsetMonotone(s, ix[a], ix[b]);
    }
  }

  /** Seek: once playback time is not negative, no note before the start beat is emitted. */
  lemma NothingBeforeOrigin(s: Score, flags: seq<bool>, w: Window)
    requires WellFormed(s, flags) && w.playbackTime >= 0.0
    ensures forall j :: j in Selection(s, flags, w) ==> j < |s.notes| && s.notes[j].beat >= Origin(s)
  {
    SelectionMembers(s, flags, w);
  }

  /**
   * When the start index is the one Track.findBeatIndex gives for the start
   * beat (as the corrected Track.PlayFrom sends it), a tick at a non-negative
   * playback time emits exactly the due notes of the whole track.
   */
  lemma SeekStartIsComplete(s: Score, flags: seq<bool>, w: Window)
    requires WellFormed(s, flags) && Sorted(s.notes) && w.playbackTime >= 0.0
    requires s.from.Some? && s.from.value.startNote == InsertionPoint(s.notes, s.from.value.beat)
    ensures forall j :: j in Selection(s, flags, w) <==> Due(s, flags, w, j)
  {
    SelectionMembers(s, flags, w);
    StopIsSafe(s, flags, w);
  }

  /** Without a start point the scan never runs: a tick emits nothing and flags nothing. */
  lemma NoStartPointNoScan(s: Score, flags: seq<bool>, w: Window)
    requires WellFormed(s, flags) && s.from.None?
    ensures Emitted(s, flags, w) == [] && Marked(s, flags, w) == flags
  {
  }

  // ---------------------------------------------------------------------
  // A whole session: a run of ticks over one flag array

  /** The indices emitted by a run of ticks, in emission order; each is a note index unflagged at the start. */
  function Emissions(s: Score, flags: seq<bool>, ws: seq<Window>): (r: seq<nat>)
    requires s.tempo > 0.0
    ensures forall j :: j in r ==> j < |s.notes| && j < |flags| && !flags[j]
    decreases |ws|
  {
    if ws == [] then [] else Selection(s, flags, ws[0]) + Emissions(s, Marked(s, flags, ws[0]), ws[1..])
  }

  /** The flags after a run of ticks. */
  function FlagsAfter(s: Score, flags: seq<bool>, ws: seq<Window>): seq<bool>
    requires s.tempo > 0.0
    decreases |ws|
  {
    if ws == [] then flags else FlagsAfter(s, Marked(s, flags, ws[0]), ws[1..])
  }

  /**
   * At most once per session: whatever the windows of the ticks (late,
   * early, overlapping), no index is emitted twice, only indices unflagged at
   * session start are emitted, and each emitted index is flagged afterwards.
   */
  lemma {:induction false} EmittedAtMostOnce(s: Score, flags: seq<bool>, ws: seq<Window>)
    requires WellFormed(s, flags)
    ensures |FlagsAfter(s, flags, ws)| == |flags|
    ensures forall a, b :: 0 <= a < b < |Emissions(s, flags, ws)| ==>
      Emissions(s, flags, ws)[a] != Emissions(s, flags, ws)[b]
    ensures forall j :: j in Emissions(s, flags, ws) ==>
      j < |flags| && !flags[j] && FlagsAfter(s, flags, ws)[j]
    ensures forall j :: 0 <= j < |flags| && flags[j] ==> FlagsAfter(s, flags, ws)[j]
    decreases |ws|
  {
    if ws != [] {
      var sel := Selection(s, flags, ws[0]);
      var next := Marked(s, flags, ws[0]);
      var rest := Emissions(s, next, ws[1..]);
      SelectionMembers(s, flags, ws[0]);
      MarkedCoversSelection(s, flags, ws[0]);
      EmittedAtMostOnce(s, next, ws[1..]);
      var all := Emissions(s, flags, ws);
      assert all == sel + rest;
      forall a, b | 0 <= a < b < |all| ensures all[a] != all[b] {
        if b < |sel| {
        } else if a < |sel| {
          assert all[a] in sel && all[b] == rest[b - |sel|] && all[b] in rest;
        } else {
          assert all[a] == rest[a - |sel|] && all[b] == rest[b - |sel|];
        }
      }
    }
  }

  /** A note that is late for every tick of a run is never emitted and never flagged. */
  lemma {:induction false} AlwaysLateNeverPlays(s: Score, flags: seq<bool>, ws: seq<Window>, j: nat)
    requires WellFormed(s, flags) && j < |s.notes|
    requires forall k :: 0 <= k < |ws| ==> Late(s, ws[k], j)
    ensures j !in Emissions(s, flags, ws)
    ensures |FlagsAfter(s, flags, ws)| == |flags| && FlagsAfter(s, flags, ws)[j] == flags[j]
    decreases |ws|
  {
    if ws != [] {
      LateNotLatched(s, flags, ws[0], j);
      assert forall k :: 0 <= k < |ws[1..]| ==> ws[1..][k] == ws[k + 1];
      AlwaysLateNeverPlays(s, Marked(s, flags, ws[0]), ws[1..], j);
    }
  }

  /** Without a start point, a whole session emits nothing. */
  lemma {:induction false} NoStartPointSilentSession(s: Score, flags: seq<bool>, ws: seq<Window>)
    requires WellFormed(s, flags) && s.from.None?
    ensures Emissions(s, flags, ws) == []
    decreases |ws|
  {
    if ws != [] {
      NoStartPointNoScan(s, flags, ws[0]);
      NoStartPointSilentSession(s, flags, ws[1..]);
    }
  }

  /**
   * A worked example: two quarter notes at beats 0 and 1, tempo 120, start
   * at beat 0. A first tick at playback time 0 with a 500 ms window takes
   * both notes, the second onset landing exactly on the window's end; a
   * second tick with the window starting at 500 ms emits nothing more.
   */
  function ExampleScore(): (s: Score)
    ensures s.tempo > 0.0 && |s.notes| == 2
  {
    Score([Note(36, 0.0, 1.0, 100), Note(38, 1.0, 1.0, 100)], 120.0, 0, Some(StartPoint(0, 0.0)))
  }

  lemma ExampleTimes()
    ensures Onset(ExampleScore(), 0) == 0.0 && Onset(ExampleScore(), 1) == 500.0
    ensures LengthMillis(ExampleScore(), 0) == 500.0 && LengthMillis(ExampleScore(), 1) == 500.0
  {
    assert 60.0 / 120.0 == 0.5;
  }

  lemma ExampleFirstTick()
    ensures Selection(ExampleScore(), [false, false], Window(0.0, 500.0)) == [0, 1]
    ensures Marked(ExampleScore(), [false, false], Window(0.0, 500.0)) == [true, true]
  {
    var s, w := ExampleScore(), Window(0.0, 500.0);
    ExampleTimes();
    assert ScanEnd(s, w, 2) == 2;
    assert ScanEnd(s, w, 0) == 2;
    assert Picked(s, [false, false], w, 0, 1) == [0];
  }

  lemma ExamplePairs()
    ensures NotePair(ExampleScore(), Window(0.0, 500.0), 0) == [Entry([0x90, 36, 100], 0.0), Entry([0x80, 36, 0], 500.0)]
    ensures NotePair(ExampleScore(), Window(0.0, 500.0), 1) == [Entry([0x90, 38, 100], 500.0), Entry([0x80, 38, 0], 1000.0)]
  {
    ExampleTimes();
    StatusOnChannel(NoteOnBase, 0);
    StatusOnChannel(NoteOffBase, 0);
  }

  lemma EntriesOfTwo(s: Score, w: Window, a: nat, b: nat)
    requires s.tempo > 0.0
    ensures EntriesFor(s, w, [a, b]) == NotePair(s, w, a) + NotePair(s, w, b)
  {
    assert [a, b][..1] == [a] && [a][..0] == [];
    assert EntriesFor(s, w, [a]) == EntriesFor(s, w, []) + NotePair(s, w, a);
  }

  lemma ExampleFirstTickEntries()
    ensures Emitted(ExampleScore(), [false, false], Window(0.0, 500.0)) ==
      NotePair(ExampleScore(), Window(0.0, 500.0), 0) + NotePair(ExampleScore(), Window(0.0, 500.0), 1)
  {
    var s, w := ExampleScore(), Window(0.0, 500.0);
    ExampleFirstTick();
    EntriesOfTwo(s, w, 0, 1);
  }

  lemma ExampleSecondTick()
    ensures Selection(ExampleScore(), [true, true], Window(500.0, 500.0)) == []
  {
    var s, w := ExampleScore(), Window(500.0, 500.0);
    ExampleTimes();
    assert ScanEnd(s, w, 2) == 2;
    assert Picked(s, [true, true], w, 0, 1) == [];
  }

}
