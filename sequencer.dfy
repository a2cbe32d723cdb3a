/** The note sequencer (js/music.js, class MusicSystem): a library of songs
    kept in insertion order, one current song and a playback cursor into its
    tokens. Every tap advances the cursor by one note, looping forever. */
module Sequencer {
  import opened Wrappers
  import opened Seqs
  import opened Notation
  import opened Audio

  datatype Song = Song(name: string, notes: string, noteArray: seq<Token>, emoji: string)

  /** What getCurrentSongInfo reports. */
  datatype SongInfo = SongInfo(name: string, progress: nat, total: nat, currentNote: string, emoji: string)

  /** Shown before anything is requested in an empty song. */
  const StartLabel: string := "開始"
  /** Shown once the cursor has reached the end of the song. */
  const DoneLabel: string := "完成"
  /** Emoji of a song added without one. */
  const DefaultEmoji: string := "\U{1F3B5}"

  /** Tone durations, in seconds, of a requested note and of a previewed note. */
  const PlayDuration: real := 0.5
  const PreviewDuration: real := 0.3

  const LibraryKeys: seq<string> := ["twinkle", "babyshark", "bee", "pokemon"]

  /** The built-in songs before their notes are parsed. */
  const Library: map<string, Song> := map[
    "twinkle" := Song("Twinkle Star", "115566544332215544332554433211556654433221", [], "⭐"),
    "babyshark" := Song("Baby Shark", "5,6,111111115,6,111111115,6,111111117,", [], "\U{1F988}"),
    "bee" := Song("Little Bee", "533422123455554442213553222223433334553342213551", [], "\U{1F41D}"),
    "pokemon" := Song("Pokemon Route 1", "123331233312334327,12227,12227,122321", [], "⚡")
  ]

  /** The library is keyed exactly by its four distinct keys. */
  lemma LibraryShape()
    ensures "twinkle" in Library
    ensures forall k :: k in Library <==> k in LibraryKeys
    ensures Distinct(LibraryKeys)
  {
  }

  /** A song with its melody string parsed into its note array. */
  function ParseSong(song: Song): Song {
    song.(noteArray := Tokenize(song.notes))
  }

  /** Every song of a library, parsed. */
  function ParseAll(lib: map<string, Song>): (m: map<string, Song>)
    ensures m.Keys == lib.Keys
  {
    map k | k in lib :: ParseSong(lib[k])
  }

  // ---------------------------------------------------------------------
  // Playback cursor

  /** The index playNextNote reads: the cursor, or 0 once it has reached
      the end of the song. */
  function PlayIndex(cursor: nat, length: nat): (p: nat)
    ensures length > 0 ==> p < length
    ensures cursor < length ==> p == cursor
    ensures cursor >= length ==> p == 0
  {
    if cursor >= length then 0 else cursor
  }

  /** The cursor after one playNextNote. */
  function Advance(cursor: nat, length: nat): nat {
    PlayIndex(cursor, length) + 1
  }

  /** The cursor after k playNextNote calls. */
  function AdvanceN(cursor: nat, length: nat, k: nat): nat
    decreases k
  {
    if k == 0 then cursor else Advance(AdvanceN(cursor, length, k - 1), length)
  }

  /** Starting from the beginning, k calls (k up to the song's length) leave
      the cursor at k: the progress shown equals the notes requested. */
  lemma {:induction false} AdvanceCounts(length: nat, k: nat)
    requires k <= length
    ensures AdvanceN(0, length, k) == k
    decreases k
  {
    if k > 0 {
      AdvanceCounts(length, k - 1);
    }
  }

  /** Within the first pass, call k + 1 reads note k. */
  lemma ReadsInOrder(length: nat, k: nat)
    requires k < length
    ensures PlayIndex(AdvanceN(0, length, k), length) == k
  {
    AdvanceCounts(length, k);
  }

  /** The song loops: once a call has been made, the cursor repeats with
      period length. */
  lemma {:induction false} CursorPeriodic(length: nat, k: nat)
    requires length > 0 && k >= 1
    ensures AdvanceN(0, length, k + length) == AdvanceN(0, length, k)
    decreases k
  {
    if k == 1 {
      AdvanceCounts(length, length);
    } else {
      CursorPeriodic(length, k - 1);
    }
  }

  /** The notes read repeat with period length, from the very first call. */
  lemma ReadsPeriodic(length: nat, k: nat)
    requires length > 0
    ensures PlayIndex(AdvanceN(0, length, k + length), length) == PlayIndex(AdvanceN(0, length, k), length)
  {
    if k == 0 {
      AdvanceCounts(length, length);
    } else {
      CursorPeriodic(length, k);
    }
  }

  /** After exactly length calls from the beginning the cursor sits at the
      end; call length + 1 reads note 0 again and leaves the cursor at 1. */
  lemma WrapAround(length: nat)
    requires length > 0
    ensures AdvanceN(0, length, length) == length
    ensures PlayIndex(AdvanceN(0, length, length), length) == 0
    ensures AdvanceN(0, length, length + 1) == 1
  {
    AdvanceCounts(length, length);
  }

  /** The cursor stays in [1, length] once a call has been made. */
  lemma AdvanceInRange(cursor: nat, length: nat)
    requires length > 0
    ensures 1 <= Advance(cursor, length) <= length
  {
  }

  // ---------------------------------------------------------------------
  // Tones

  /** The token at an index, `undefined` past the end. */
  function NoteAt(noteArray: seq<Token>, index: nat): Option<Token> {
    if index < |noteArray| then Some(noteArray[index]) else None
  }

  /** The tone request a note causes: one, of that note's frequency, when the
      table gives it a positive frequency; none for a rest, an unknown token
      or a missing note. */
  function ToneFor(note: Option<Token>, duration: real): (ts: seq<Tone>)
    ensures |ts| <= 1
    ensures |ts| == 1 <==> note.Some? && note.value in NoteFrequencies && note.value != "0"
    ensures |ts| == 1 ==> ts[0] == Tone(NoteFrequencies[note.value], duration) && ts[0].frequency > 0.0
  {
    if note.Some? && Lookup(note.value) > 0.0 then [Tone(Lookup(note.value), duration)] else []
  }

  // ---------------------------------------------------------------------
  // What the info panel shows

  /** The note getCurrentSongInfo reports: the first note while nothing has
      been requested (or the start label for an empty song), the done label
      once the cursor is at the end, and otherwise the note just requested. */
  function DisplayNote(noteArray: seq<Token>, cursor: nat): string {
    if cursor == 0 then
      (if |noteArray| > 0 && noteArray[0] != "" then noteArray[0] else StartLabel)
    else if cursor >= |noteArray| then DoneLabel
    else noteArray[cursor - 1]
  }

  /** getCurrentNoteFrequency, read off the same cases. */
  function DisplayFrequency(noteArray: seq<Token>, cursor: nat): real {
    if cursor == 0 then
      (if |noteArray| > 0 && noteArray[0] != "" then Lookup(noteArray[0]) else 0.0)
    else if cursor >= |noteArray| then 0.0
    else if noteArray[cursor - 1] != "" then Lookup(noteArray[cursor - 1])
    else 0.0
  }

  /** Neither label, nor the empty string, is a key of the table. */
  lemma LabelsAreNotNotes()
    ensures StartLabel !in NoteFrequencies && DoneLabel !in NoteFrequencies && "" !in NoteFrequencies
  {
    TableKeys();
    assert StartLabel[0] == '開' && DoneLabel[0] == '完';
  }

  /** The reported frequency is always the table's frequency of the reported
      note: the two labels are not notes and have none. */
  lemma DisplayConsistent(noteArray: seq<Token>, cursor: nat)
    ensures DisplayFrequency(noteArray, cursor) == Lookup(DisplayNote(noteArray, cursor))
  {
    LabelsAreNotNotes();
  }

  /** Right after playNextNote the panel shows the note that was just
      requested, except after the song's last note, when it shows the done
      label with frequency 0. */
  lemma DisplayAfterPlay(noteArray: seq<Token>, cursor: nat)
    ensures var p := PlayIndex(cursor, |noteArray|);
      var c := Advance(cursor, |noteArray|);
      if p + 1 < |noteArray| then
        DisplayNote(noteArray, c) == noteArray[p] &&
        DisplayFrequency(noteArray, c) == Lookup(noteArray[p])
      else
        DisplayNote(noteArray, c) == DoneLabel && DisplayFrequency(noteArray, c) == 0.0
  {
    var p := PlayIndex(cursor, |noteArray|);
    var c := Advance(cursor, |noteArray|);
    assert c == p + 1 && c >= 1;
    if p + 1 < |noteArray| {
      assert DisplayNote(noteArray, c) == noteArray[p];
      if noteArray[p] == "" {
        LabelsAreNotNotes();
      }
    }
  }

  // ---------------------------------------------------------------------
  // addSong

  function EmojiOr(emoji: Option<string>): string {
    if emoji.Some? && emoji.value != "" then emoji.value else DefaultEmoji
  }

  /** The note array addSong builds as written: `notes.split("")` without the
      spaces, one token per character. */
  function SplitNoteArray(notes: string): seq<Token> {
    Map(RemoveSpaces(notes), Single)
  }

  /** As written, addSong splits octave and flat marks off their notes: the
      low So "5," becomes the two tokens "5" and ",". */
  lemma SplitNoteArrayLosesMarks(notes: string)
    requires notes == "5,"
    ensures SplitNoteArray(notes) == ["5", ","]
  {
    assert |notes| == 2 && notes[0] == '5' && notes[1] == ',';
    FilterAllKept(notes, NotSpace);
    var split := Map(notes, Single);
    assert |split| == 2 && split[0] == Single(notes[0]) && split[1] == Single(notes[1]);
    assert Single(notes[0]) == [notes[0]] && Single(notes[1]) == [notes[1]];
    assert split[0] == "5" && split[1] == ",";
  }

  /** The stray "," is silent ... */
  lemma CommaIsSilent()
    ensures ToneFor(Some(","), PlayDuration) == []
  {
    TableKeys();
    assert "," !in NoteFrequencies;
  }

  /** ... where the library's own parse keeps "5," as one token, a 196 Hz
      note. */
  lemma ParseKeepsLowSo(notes: string)
    requires notes == "5,"
    ensures Tokenize(notes) == ["5,"]
    ensures Lookup(notes) == 196.0
  {
    assert |notes| == 2 && notes[0] == '5' && notes[1] == ',';
    assert TokenLength(notes) == 2;
    assert notes[..2] == notes;
    assert notes[2..] == [];
  }

  // ---------------------------------------------------------------------

  class MusicSystem {
    const audio: TonePlayer
    var songs: map<string, Song>
    /** Object.keys(songs): the keys in insertion order. */
    var songKeys: seq<string>
    var currentSong: string
    var currentNoteIndex: nat

    ghost predicate Valid()
      reads this
    {
      && currentSong in songs
      && (forall k :: k in songs <==> k in songKeys)
      && Distinct(songKeys)
    }

    function CurrentNotes(): seq<Token>
      reads this
      requires Valid()
    {
      songs[currentSong].noteArray
    }

    constructor (audio: TonePlayer)
      ensures this.audio == audio && Valid()
      ensures songKeys == LibraryKeys && songs == ParseAll(Library)
      ensures currentSong == "twinkle" && currentNoteIndex == 0
    {
      this.audio := audio;
      songs := Library;
      songKeys := LibraryKeys;
      currentSong := "twinkle";
      currentNoteIndex := 0;
      LibraryShape();
      new;
      InitializeSongs();
    }

    /** Parse every song's melody string into its note array. */
    method InitializeSongs()
      requires Valid()
      modifies this`songs
      ensures Valid() && songs == ParseAll(old(songs))
      ensures songKeys == old(songKeys) && currentSong == old(currentSong) && currentNoteIndex == old(currentNoteIndex)
    {
      ghost var lib := songs;
      var i := 0;
      while i < |songKeys|
        invariant 0 <= i <= |songKeys|
        invariant songs.Keys == lib.Keys
        invariant forall j :: 0 <= j < i ==> songs[songKeys[j]] == ParseSong(lib[songKeys[j]])
        invariant forall j :: i <= j < |songKeys| ==> songs[songKeys[j]] == lib[songKeys[j]]
      {
        var key := songKeys[i];
        var song := songs[key];
        var parsed := ParseNotes(song.notes);
        songs := songs[key := song.(noteArray := parsed)];
        i := i + 1;
      }
      forall k | k in songs
        ensures songs[k] == ParseAll(lib)[k]
      {
        var j :| 0 <= j < |songKeys| && songKeys[j] == k;
      }
    }

    /** Wrap to the first note at the end, play the note under the cursor if
        it has a positive frequency, move the cursor on. */
    method PlayNextNote()
      requires Valid()
      modifies this`currentNoteIndex, audio
      ensures Valid()
      ensures currentNoteIndex == Advance(old(currentNoteIndex), |CurrentNotes()|)
      ensures audio.requested == old(audio.requested) +
        ToneFor(NoteAt(CurrentNotes(), PlayIndex(old(currentNoteIndex), |CurrentNotes()|)), PlayDuration)
      ensures audio.initialized == old(audio.initialized)
    {
      var song := songs[currentSong];
      if currentNoteIndex >= |song.noteArray| {
        currentNoteIndex := 0;
      }
      var note := NoteAt(song.noteArray, currentNoteIndex);
      var frequency := if note.Some? && note.value in NoteFrequencies then Some(NoteFrequencies[note.value]) else None;
      if frequency.Some? && frequency.value > 0.0 {
        audio.PlayTone(frequency.value, PlayDuration);
      }
      currentNoteIndex := currentNoteIndex + 1;
    }

    /** A registered key becomes the current song, from its first note; any
        other key changes nothing. */
    method SwitchSong(songKey: string)
      requires Valid()
      modifies this`currentSong, this`currentNoteIndex
      ensures Valid()
      ensures songKey in songs ==> currentSong == songKey && currentNoteIndex == 0
      ensures songKey !in songs ==>
        currentSong == old(currentSong) && currentNoteIndex == old(currentNoteIndex)
    {
      if songKey in songs {
        currentSong := songKey;
        currentNoteIndex := 0;
      }
    }

    method ResetSong()
      requires Valid()
      modifies this`currentNoteIndex
      ensures Valid() && currentNoteIndex == 0
    {
      currentNoteIndex := 0;
    }

    function GetCurrentSongInfo(): (info: SongInfo)
      reads this
      requires Valid()
      ensures info.progress == currentNoteIndex && info.total == |CurrentNotes()|
      ensures info.currentNote == DisplayNote(CurrentNotes(), currentNoteIndex)
    {
      var song := songs[currentSong];
      SongInfo(song.name, currentNoteIndex, |song.noteArray|,
               DisplayNote(song.noteArray, currentNoteIndex), song.emoji)
    }

    function GetCurrentNoteFrequency(): (f: real)
      reads this
      requires Valid()
      ensures f == Lookup(GetCurrentSongInfo().currentNote)
    {
      DisplayConsistent(CurrentNotes(), currentNoteIndex);
      DisplayFrequency(songs[currentSong].noteArray, currentNoteIndex)
    }

    /** Register a song, or replace the one under an existing key (which
        keeps its place in the order). The melody is parsed like the
        library's own songs; see SplitNoteArray for the source's split. */
    method AddSong(key: string, name: string, notes: string, emoji: Option<string>)
      requires Valid()
      modifies this`songs, this`songKeys
      ensures Valid()
      ensures songs == old(songs)[key := Song(name, notes, Tokenize(notes), EmojiOr(emoji))]
      ensures songKeys == if key in old(songs) then old(songKeys) else old(songKeys) + [key]
    {
      var noteArray := ParseNotes(notes);
      if key !in songs {
        songKeys := songKeys + [key];
      }
      songs := songs[key := Song(name, notes, noteArray, EmojiOr(emoji))];
    }

    method SwitchToNextSong() returns (song: Song)
      requires Valid()
      modifies this`currentSong, this`currentNoteIndex
      ensures Valid()
      ensures currentSong == NextKey(songKeys, old(currentSong)) && currentNoteIndex == 0
      ensures song == songs[currentSong]
    {
      var currentIndex := IndexOf(songKeys, currentSong);
      var nextIndex := (currentIndex + 1) % |songKeys|;
      SuccIsMod(currentIndex, |songKeys|);
      SwitchSong(songKeys[nextIndex]);
      song := songs[songKeys[nextIndex]];
    }

    /** Play a note without touching the cursor or the current song. */
    method PreviewNote(note: Token)
      modifies audio
      ensures audio.requested == old(audio.requested) + ToneFor(Some(note), PreviewDuration)
      ensures audio.initialized == old(audio.initialized)
    {
      var frequency := if note in NoteFrequencies then Some(NoteFrequencies[note]) else None;
      if frequency.Some? && frequency.value > 0.0 {
        audio.PlayTone(frequency.value, PreviewDuration);
      }
    }
  }
}
