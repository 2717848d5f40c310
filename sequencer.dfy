/**
 * The parts of the editor page (scripts/src/Sequencer.ts) that decide
 * something: the csrf cookie lookup, track naming, transposition of the
 * current track, the mode toggle, the classification of server responses and
 * the guards of upload and release. The Song object is reduced to the fields
 * the page reads and writes; drawing, AJAX, localStorage and the Controls
 * object are reduced to logs of what is shown or sent.
 */
module Sequencer {
  import opened Wrappers
  import opened Notes

  // ---------------------------------------------------------------------
  // Strings: String.prototype.split on one character, and decimal numerals

  /** The first index of c in s. */
  function IndexOf(s: string, c: char): (i: nat)
    requires c in s
    ensures i < |s| && s[i] == c && c !in s[..i]
  {
    if s[0] == c then 0 else 1 + IndexOf(s[1..], c)
  }

  /** `s.split(sep)`: the pieces between separators, one piece when there is none. */
  function Split(s: string, sep: char): (r: seq<string>)
    ensures |r| >= 1
    ensures forall k :: 0 <= k < |r| ==> sep !in r[k]
    decreases |s|
  {
    if sep !in s then [s]
    else
      var i := IndexOf(s, sep);
      [s[..i]] + Split(s[i + 1..], sep)
  }

  /** `parts.join(sep)`. */
  function Join(parts: seq<string>, sep: char): string
    requires |parts| >= 1
  {
    if |parts| == 1 then parts[0] else parts[0] + [sep] + Join(parts[1..], sep)
  }

  /** Splitting loses nothing: joining the pieces back gives the string. */
  lemma {:induction false} SplitJoin(s: string, sep: char)
    ensures Join(Split(s, sep), sep) == s
    decreases |s|
  {
    if sep in s {
      var i := IndexOf(s, sep);
      var rest := Split(s[i + 1..], sep);
      SplitJoin(s[i + 1..], sep);
      var r := Split(s, sep);
      assert r == [s[..i]] + rest;
      assert r[1..] == rest;
      assert Join(r, sep) == s[..i] + [sep] + Join(rest, sep);
      assert s == s[..i] + [sep] + s[i + 1..];
    }
  }

  function DigitChar(d: nat): char
    requires d < 10
  {
    ('0' as int + d) as char
  }

  predicate IsDigit(c: char) {
    '0' <= c <= '9'
  }

  function DigitValue(c: char): nat
    requires IsDigit(c)
  {
    (c as int) - ('0' as int)
  }

  /** `"" + n` for a natural number: its decimal numeral. */
  function Decimal(n: nat): (r: string)
    ensures |r| >= 1 && forall k :: 0 <= k < |r| ==> IsDigit(r[k])
    ensures r[0] == '0' <==> n == 0
  {
    if n < 10 then [DigitChar(n)] else Decimal(n / 10) + [DigitChar(n % 10)]
  }

  /** The value of a numeral. */
  function ParseDecimal(s: string): nat
    requires forall k :: 0 <= k < |s| ==> IsDigit(s[k])
  {
    if s == [] then 0 else 10 * ParseDecimal(s[..|s| - 1]) + DigitValue(s[|s| - 1])
  }

  lemma {:induction false} DecimalRoundTrip(n: nat)
    ensures ParseDecimal(Decimal(n)) == n
  {
    if n >= 10 {
      DecimalRoundTrip(n / 10);
      var d := Decimal(n);
      assert d[..|d| - 1] == Decimal(n / 10);
      assert DigitValue(d[|d| - 1]) == n % 10;
    }
  }

  /**
   * generateTrackName: the 1-based track number, ": ", and the instrument's
   * display name. The name reads back: the digits before its first ':' give
   * the track number, and the text from there on is ": " and the display name.
   */
  function GenerateTrackName(trackID: nat, displayName: string): (name: string)
    ensures ':' in name
    ensures forall j :: 0 <= j < IndexOf(name, ':') ==> IsDigit(name[j])
    ensures ParseDecimal(name[..IndexOf(name, ':')]) == trackID + 1
    ensures name[IndexOf(name, ':')..] == ": " + displayName
    ensures name[0] != '0'
  {
    var d := Decimal(trackID + 1);
    NumeralThenColon(d, displayName);
    DecimalRoundTrip(trackID + 1);
    d + ": " + displayName
  }

  /** In a numeral followed by ": " and a text, the first ':' is the one right after the numeral. */
  lemma NumeralThenColon(d: string, text: string)
    requires forall j :: 0 <= j < |d| ==> IsDigit(d[j])
    ensures var name := d + ": " + text;
      && ':' in name && IndexOf(name, ':') == |d|
      && name[..|d|] == d && name[|d|..] == ": " + text
  {
    var name := d + ": " + text;
    assert name == d + (": " + text);
    assert name[..|d|] == d;
    assert name[|d|..] == ": " + text;
    forall j | 0 <= j < |d| ensures d[j] != ':' {
      assert IsDigit(d[j]);
    }
    IndexOfFirst(name, ':', |d|);
  }

  /** IndexOf gives the one index where c occurs first. */
  lemma IndexOfFirst(s: string, c: char, k: nat)
    requires k < |s| && s[k] == c && c !in s[..k]
    ensures c in s && IndexOf(s, c) == k
  {
  }

  // ---------------------------------------------------------------------
  // getCookie

  /** Whether a `;`-separated cookie entry, once trimmed, starts with `name=`. */
  predicate CookieMatches(entry: string, name: string, trim: string -> string) {
    var c := trim(entry);
    |c| >= |name| + 1 && c[..|name| + 1] == name + "="
  }

  /** The index of the first entry that matches, if any. */
  function FirstMatchIndex(entries: seq<string>, name: string, trim: string -> string): (k: Option<nat>)
    ensures k.None? <==> forall j :: 0 <= j < |entries| ==> !CookieMatches(entries[j], name, trim)
    ensures k.Some? ==>
      && k.value < |entries| && CookieMatches(entries[k.value], name, trim)
      && forall j :: 0 <= j < k.value ==> !CookieMatches(entries[j], name, trim)
  {
    if entries == [] then None
    else if CookieMatches(entries[0], name, trim) then Some(0)
    else
      match FirstMatchIndex(entries[1..], name, trim)
      case None => None
      case Some(k) => Some(k + 1)
  }

  /** The decoded remainder of the first entry that matches, if any. */
  function FirstCookie(entries: seq<string>, name: string, trim: string -> string, decode: string -> string)
    : Option<string>
  {
    match FirstMatchIndex(entries, name, trim)
    case None => None
    case Some(k) => Some(decode(trim(entries[k])[|name| + 1..]))
  }

  /**
   * What getCookie returns for the cookie string: null (None) for an empty
   * cookie or when no entry matches, else the decoded remainder of the first
   * matching entry.
   */
  function CookieLookup(cookie: string, name: string, trim: string -> string, decode: string -> string)
    : (r: Option<string>)
    ensures r.Some? <==>
      cookie != "" && exists k :: 0 <= k < |Split(cookie, ';')| && CookieMatches(Split(cookie, ';')[k], name, trim)
    ensures r.Some? ==>
      var entries, k := Split(cookie, ';'), FirstMatchIndex(Split(cookie, ';'), name, trim).value;
      r.value == decode(trim(entries[k])[|name| + 1..])
  {
    if cookie == "" then None else FirstCookie(Split(cookie, ';'), name, trim, decode)
  }

  /** The first match is the only index that matches with no match before it. */
  lemma FirstMatchUnique(entries: seq<string>, name: string, trim: string -> string, k: nat)
    requires k < |entries| && CookieMatches(entries[k], name, trim)
    requires forall j :: 0 <= j < k ==> !CookieMatches(entries[j], name, trim)
    ensures FirstMatchIndex(entries, name, trim) == Some(k)
  {
  }

  /** Later entries do not matter once an entry matches. */
  lemma FirstMatchWins(a: seq<string>, b: seq<string>, name: string, trim: string -> string, decode: string -> string)
    requires FirstCookie(a, name, trim, decode).Some?
    ensures FirstCookie(a + b, name, trim, decode) == FirstCookie(a, name, trim, decode)
  {
    var k := FirstMatchIndex(a, name, trim).value;
    assert forall j :: 0 <= j <= k ==> (a + b)[j] == a[j];
    FirstMatchUnique(a + b, name, trim, k);
  }

  /**
   * getCookie: splits the cookie string at ';' and walks the entries, trimming
   * each, until one starts with `name=`; its remainder, decoded, is the
   * result. trim and decode stand for jQuery.trim and decodeURIComponent.
   */
  method GetCookie(cookie: string, name: string, trim: string -> string, decode: string -> string)
    returns (cookieValue: Option<string>)
    ensures cookieValue == CookieLookup(cookie, name, trim, decode)
  {
    cookieValue := None;
    if cookie != "" {
      var cookies := Split(cookie, ';');
      var i := 0;
      while i < |cookies|
        invariant 0 <= i <= |cookies|
        invariant forall j :: 0 <= j < i ==> !CookieMatches(cookies[j], name, trim)
      {
        var c := trim(cookies[i]);
        if |c| >= |name| + 1 && c[..|name| + 1] == name + "=" {
          FirstMatchUnique(cookies, name, trim, i);
          cookieValue := Some(decode(c[|name| + 1..]));
          break;
        }
        i := i + 1;
      }
    }
  }

  // ---------------------------------------------------------------------
  // Transposition

  function Shifted(n: Note, num: int): Note {
    n.(noteNumber := n.noteNumber + num)
  }

  /** Every note moved by num semitones, nothing else changed. */
  function Transposed(ns: seq<Note>, num: int): (r: seq<Note>)
    ensures |r| == |ns|
  {
    seq(|ns|, k requires 0 <= k < |ns| => Shifted(ns[k], num))
  }

  /** The first i notes moved, the others as they were. */
  function TransposedUpTo(ns: seq<Note>, num: int, i: nat): (r: seq<Note>)
    ensures |r| == |ns|
  {
    seq(|ns|, k requires 0 <= k < |ns| => if k < i then Shifted(ns[k], num) else ns[k])
  }

  /**
   * Transposition keeps the timing of every note, so a beat-sorted track
   * stays sorted, and transposing back by -num restores the track.
   */
  lemma TransposeKeepsTiming(ns: seq<Note>, num: int)
    ensures forall k :: 0 <= k < |ns| ==>
      Transposed(ns, num)[k].beat == ns[k].beat && Transposed(ns, num)[k].duration == ns[k].duration
      && Transposed(ns, num)[k].volume == ns[k].volume
      && Transposed(ns, num)[k].noteNumber == ns[k].noteNumber + num
    ensures Sorted(ns) ==> Sorted(Transposed(ns, num))
    ensures Transposed(Transposed(ns, num), -num) == ns
  {
    var t := Transposed(ns, num);
    assert forall i, j :: 0 <= i < j < |ns| ==> t[i].beat == ns[i].beat && t[j].beat == ns[j].beat;
    var back := Transposed(t, -num);
    assert forall k :: 0 <= k < |ns| ==> back[k] == ns[k];
  }

  // ---------------------------------------------------------------------
  // Server responses

  datatype Response =
    | ServerError(message: string)  // the text starts with '!'
    | InvalidResponse               // the text does not start with '{' (or is empty)
    | JsonResponse                  // the text starts with '{'

  /** `res.charAt(0)` tested against '!' and then '{'; charAt(0) of "" is "", neither. */
  function ClassifyResponse(res: string): (r: Response)
    ensures r.ServerError? ==> res == ['!'] + r.message
    ensures r.JsonResponse? ==> |res| > 0 && res[0] == '{'
    ensures r.InvalidResponse? ==> res == [] || (res[0] != '!' && res[0] != '{')
  {
    if |res| > 0 && res[0] == '!' then ServerError(res[1..])
    else if |res| > 0 && res[0] == '{' then JsonResponse
    else InvalidResponse
  }

  /** The text the page alerts for a response it rejects. */
  function InvalidResponseAlert(res: string): string {
    "Invalid response: " + res
  }

  /** The alert shown when the song name is empty. */
  const NameRequiredAlert: string := "曲名を入力してください"

  // ---------------------------------------------------------------------
  // The page state

  /** The fields of a Song the page reads and writes; an empty name stands for an empty or null one. */
  datatype Song = Song(name: string, songID: int, userID: int, isOnRelease: bool, tracks: seq<seq<Note>>)

  /** The songID and userID of a parsed upload response. */
  datatype UploadIds = UploadIds(songID: int, userID: int)

  /** Calls the mode toggle makes on the Controls object. */
  datatype ControlCall = SetReadOnlyMode | SetWriteMode(isOnRelease: bool)

  /** What upload and release do beyond the page: autosave, POST to the server, mark released. */
  datatype Request = SaveLocally | Upload(csrfToken: Option<string>) | ReleaseRequested

  class Sequencer {
    var song: Song
    var index: nat
    var isWriteMode: bool
    var alerts: seq<string>
    var controls: seq<ControlCall>
    var requests: seq<Request>

    constructor (song: Song)
      ensures this.song == song && index == 0 && isWriteMode
      ensures alerts == [] && controls == [] && requests == []
    {
      this.song := song;
      index := 0;
      isWriteMode := true;
      alerts := [];
      controls := [];
      requests := [];
    }

    /** setMode: nothing when the mode is already the requested one; otherwise it is stored and shown. */
    method SetMode(isWriteMode: bool)
      modifies this`isWriteMode, this`controls
      ensures this.isWriteMode == isWriteMode
      ensures old(this.isWriteMode) == isWriteMode ==> controls == old(controls)
      ensures old(this.isWriteMode) != isWriteMode ==>
        controls == old(controls) + [if isWriteMode then SetWriteMode(song.isOnRelease) else SetReadOnlyMode]
    {
      if isWriteMode == this.isWriteMode {
        return;
      }
      this.isWriteMode := isWriteMode;
      if !this.isWriteMode {
        controls := controls + [SetReadOnlyMode];
      } else {
        controls := controls + [SetWriteMode(song.isOnRelease)];
      }
    }

    /** transposeCurrentTrack: adds num to the note number of every note of the current track. */
    method TransposeCurrentTrack(num: int)
      requires index < |song.tracks|
      modifies this`song
      ensures song == old(song).(tracks := old(song).tracks[index := Transposed(old(song).tracks[index], num)])
    {
      ghost var notes0 := song.tracks[index];
      var i := 0;
      assert TransposedUpTo(notes0, num, 0) == notes0;
      assert song.tracks[index := notes0] == song.tracks;
      while i < |song.tracks[index]|
        invariant 0 <= i <= |notes0|
        invariant song == old(song).(tracks := old(song).tracks[index := TransposedUpTo(notes0, num, i)])
      {
        var track := song.tracks[index];
        song := song.(tracks := song.tracks[index := track[i := Shifted(track[i], num)]]);
        assert song.tracks[index] == TransposedUpTo(notes0, num, i + 1);
        i := i + 1;
      }
      assert TransposedUpTo(notes0, num, i) == Transposed(notes0, num);
    }

    /**
     * processUploadResponse: an error or invalid response is alerted and
     * leaves the song alone; a JSON response fills in the song and user ids
     * that are still 0 and keeps the others. parsed stands for JSON.parse(res).
     */
    method ProcessUploadResponse(res: string, parsed: UploadIds)
      modifies this`song, this`alerts
      ensures ClassifyResponse(res).ServerError? ==>
        song == old(song) && alerts == old(alerts) + [ClassifyResponse(res).message]
      ensures ClassifyResponse(res).InvalidResponse? ==>
        song == old(song) && alerts == old(alerts) + [InvalidResponseAlert(res)]
      ensures ClassifyResponse(res).JsonResponse? ==>
        && alerts == old(alerts)
        && song == old(song).(songID := if old(song).songID == 0 then parsed.songID else old(song).songID,
                              userID := if old(song).userID == 0 then parsed.userID else old(song).userID)
    {
      match ClassifyResponse(res) {
        case ServerError(message) =>
          alerts := alerts + [message];
        case InvalidResponse =>
          alerts := alerts + [InvalidResponseAlert(res)];
        case JsonResponse =>
          if song.songID == 0 {
            song := song.(songID := parsed.songID);
          }
          if song.userID == 0 {
            song := song.(userID := parsed.userID);
          }
      }
    }

    /**
     * processImportResponse: an error or invalid response is alerted and
     * leaves the song alone; a JSON response replaces the song by the one it
     * decodes to (loaded stands for Song.loadJSON(res)) and selects track 0.
     */
    method ProcessImportResponse(res: string, loaded: Song)
      modifies this`song, this`alerts, this`index
      ensures ClassifyResponse(res).ServerError? ==>
        song == old(song) && index == old(index) && alerts == old(alerts) + [ClassifyResponse(res).message]
      ensures ClassifyResponse(res).InvalidResponse? ==>
        song == old(song) && index == old(index) && alerts == old(alerts) + [InvalidResponseAlert(res)]
      ensures ClassifyResponse(res).JsonResponse? ==> song == loaded && index == 0 && alerts == old(alerts)
    {
      match ClassifyResponse(res) {
        case ServerError(message) =>
          alerts := alerts + [message];
        case InvalidResponse =>
          alerts := alerts + [InvalidResponseAlert(res)];
        case JsonResponse =>
          song := loaded;
          index := 0;
      }
    }

    /**
     * uploadSong: with an empty name, alerts and stops; otherwise saves
     * locally and posts the song with the csrftoken cookie of the page.
     */
    method UploadSong(cookie: string, trim: string -> string, decode: string -> string)
      modifies this`alerts, this`requests
      ensures song.name == "" ==> alerts == old(alerts) + [NameRequiredAlert] && requests == old(requests)
      ensures song.name != "" ==>
        && alerts == old(alerts)
        && requests == old(requests) + [SaveLocally, Upload(CookieLookup(cookie, "csrftoken", trim, decode))]
    {
      if song.name == "" {
        alerts := alerts + [NameRequiredAlert];
        return;
      }
      var csrfToken := GetCookie(cookie, "csrftoken", trim, decode);
      requests := requests + [SaveLocally];
      requests := requests + [Upload(csrfToken)];
    }

    /** releaseSong: with an empty name, alerts and stops; otherwise marks the song released and uploads it. */
    method ReleaseSong(cookie: string, trim: string -> string, decode: string -> string)
      modifies this`alerts, this`requests
      ensures song.name == "" ==> alerts == old(alerts) + [NameRequiredAlert] && requests == old(requests)
      ensures song.name != "" ==>
        && alerts == old(alerts)
        && requests == old(requests) + [ReleaseRequested, SaveLocally, Upload(CookieLookup(cookie, "csrftoken", trim, decode))]
    {
      if song.name == "" {
        alerts := alerts + [NameRequiredAlert];
        return;
      }
      requests := requests + [ReleaseRequested];
      UploadSong(cookie, trim, decode);
    }
  }
}
