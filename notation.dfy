/** Numbered musical notation (jianpu) as used by the melody strings of the
    note sequencer: a scale degree character, an optional flat mark `b`,
    an optional octave mark (`,` one octave down, `.` one octave up).
    Spaces separate notes and are never part of one. */
module Notation {
  import opened Seqs

  type Token = string

  predicate IsOctaveMark(c: char) {
    c == ',' || c == '.'
  }

  /** Length of the greedy token that starts at s[0]: the head character,
      then `b` if it follows, then an octave mark if it follows that. */
  function TokenLength(s: string): (n: nat)
    requires |s| > 0
    ensures 1 <= n <= 3 && n <= |s|
  {
    var afterFlat := if 1 < |s| && s[1] == 'b' then 2 else 1;
    if afterFlat < |s| && IsOctaveMark(s[afterFlat]) then afterFlat + 1 else afterFlat
  }

  /** The tokens of a melody string, read left to right without backtracking. */
  function Tokenize(s: string): seq<Token>
    decreases |s|
  {
    if s == [] then []
    else if s[0] == ' ' then Tokenize(s[1..])
    else
      var n := TokenLength(s);
      [s[..n]] + Tokenize(s[n..])
  }

  /** The shape every token has: one non-space head, then nothing, a flat
      mark, an octave mark, or a flat mark followed by an octave mark. */
  predicate TokenShape(t: Token) {
    1 <= |t| <= 3 && t[0] != ' ' &&
    var marks := t[1..];
    marks == "" || marks == "b" || marks == "," || marks == "." || marks == "b," || marks == "b."
  }

  function Concat(ts: seq<Token>): string
    decreases |ts|
  {
    if ts == [] then "" else ts[0] + Concat(ts[1..])
  }

  predicate NotSpace(c: char) {
    c != ' '
  }

  function RemoveSpaces(s: string): string {
    Filter(s, NotSpace)
  }

  /** One step of the scan at index i: a space is skipped, anything else
      starts a token of TokenLength characters. */
  lemma TokenizeAt(s: string, i: nat)
    requires i < |s|
    ensures s[i] == ' ' ==> Tokenize(s[i..]) == Tokenize(s[i + 1..])
    ensures s[i] != ' ' ==>
      var n := TokenLength(s[i..]);
      i + n <= |s| && Tokenize(s[i..]) == [s[i..i + n]] + Tokenize(s[i + n..])
    ensures var afterFlat := if i + 1 < |s| && s[i + 1] == 'b' then i + 2 else i + 1;
      i + TokenLength(s[i..]) ==
        if afterFlat < |s| && IsOctaveMark(s[afterFlat]) then afterFlat + 1 else afterFlat
  {
    var rest := s[i..];
    assert rest[1..] == s[i + 1..];
    if s[i] != ' ' {
      var n := TokenLength(rest);
      assert rest[..n] == s[i..i + n];
      assert rest[n..] == s[i + n..];
    }
  }

  lemma SliceGrow(s: string, i: nat, j: nat)
    requires i <= j < |s|
    ensures s[i..j] + [s[j]] == s[i..j + 1]
  {
  }

  lemma AppendAssoc<T>(a: seq<T>, b: seq<T>, c: seq<T>)
    ensures (a + b) + c == a + (b + c)
  {
  }

  /** js/music.js `parseNotes`: a single left-to-right scan with index i,
      pushing one token per non-space head character. */
  method ParseNotes(noteString: string) returns (notes: seq<Token>)
    ensures notes == Tokenize(noteString)
  {
    notes := [];
    var i := 0;
    while i < |noteString|
      invariant 0 <= i <= |noteString|
      invariant notes + Tokenize(noteString[i..]) == Tokenize(noteString)
    {
      TokenizeAt(noteString, i);
      var c := noteString[i];
      if c == ' ' {
        i := i + 1;
        continue;
      }
      var note := [c];
      var nextIndex := i + 1;
      assert note == noteString[i..nextIndex];
      if nextIndex < |noteString| && noteString[nextIndex] == 'b' {
        SliceGrow(noteString, i, nextIndex);
        note := note + ['b'];
        nextIndex := nextIndex + 1;
      }
      if nextIndex < |noteString| {
        var octaveChar := noteString[nextIndex];
        if octaveChar == ',' || octaveChar == '.' {
          SliceGrow(noteString, i, nextIndex);
          note := note + [octaveChar];
          nextIndex := nextIndex + 1;
        }
      }
      assert note[0] == c;
      assert nextIndex == i + TokenLength(noteString[i..]);
      ghost var rest := Tokenize(noteString[nextIndex..]);
      assert Tokenize(noteString[i..]) == [note] + rest;
      if note != " " {
        AppendAssoc(notes, [note], rest);
        notes := notes + [note];
      }
      i := nextIndex;
    }
  }

  lemma {:induction false} TokenizeShapes(s: string)
    ensures forall k :: 0 <= k < |Tokenize(s)| ==> TokenShape(Tokenize(s)[k])
    decreases |s|
  {
    if s != [] {
      if s[0] == ' ' {
        TokenizeShapes(s[1..]);
      } else {
        var n := TokenLength(s);
        TokenizeShapes(s[n..]);
        var t := s[..n];
        assert TokenShape(t) by {
          if n == 2 {
            assert t[1..] == [s[1]];
          } else if n == 3 {
            assert t[1..] == [s[1], s[2]];
          }
        }
        assert Tokenize(s) == [t] + Tokenize(s[n..]);
      }
    }
  }

  /** A token never holds a space, so it survives space removal intact. */
  lemma RemoveSpacesOfToken(t: Token)
    requires TokenShape(t)
    ensures RemoveSpaces(t) == t
  {
    FilterAllKept(t, NotSpace);
  }

  lemma {:induction false} ConcatAppend(a: seq<Token>, b: seq<Token>)
    ensures Concat(a + b) == Concat(a) + Concat(b)
    decreases |a|
  {
    if a == [] {
      assert a + b == b;
    } else {
      assert (a + b)[1..] == a[1..] + b;
      ConcatAppend(a[1..], b);
    }
  }

  /** Gluing the tokens back together gives the input with its spaces
      removed: the scan neither drops nor invents a character. */
  lemma {:induction false} TokenizeConcat(s: string)
    ensures Concat(Tokenize(s)) == RemoveSpaces(s)
    decreases |s|
  {
    if s != [] {
      assert s == [s[0]] + s[1..];
      FilterAppend([s[0]], s[1..], NotSpace);
      if s[0] == ' ' {
        TokenizeConcat(s[1..]);
      } else {
        var n := TokenLength(s);
        var t := s[..n];
        TokenizeConcat(s[n..]);
        TokenizeShapes(s);
        assert Tokenize(s)[0] == t;
        RemoveSpacesOfToken(t);
        assert s == t + s[n..];
        FilterAppend(t, s[n..], NotSpace);
        assert Tokenize(s) == [t] + Tokenize(s[n..]);
        ConcatAppend([t], Tokenize(s[n..]));
        assert Concat([t]) == t;
      }
    }
  }

  /** A character that can only be the head of a token. */
  predicate IsPlain(c: char) {
    c != ' ' && c != 'b' && !IsOctaveMark(c)
  }

  function Single(c: char): Token {
    [c]
  }

  /** A melody without spaces, flats or octave marks is one token per character. */
  lemma {:induction false} TokenizePlain(s: string)
    requires forall i :: 0 <= i < |s| ==> IsPlain(s[i])
    ensures Tokenize(s) == Map(s, Single)
    decreases |s|
  {
    if s != [] {
      assert TokenLength(s) == 1;
      TokenizePlain(s[1..]);
      assert s[..1] == [s[0]];
      assert Map(s, Single) == [Single(s[0])] + Map(s[1..], Single);
    }
  }

  /** js/music.js noteFrequencies: Hz per token; "0" is a rest. Numeric keys
      of the JavaScript object literal (1 … 7, 0) are the strings "1" … "0". */
  const NoteFrequencies: map<Token, real> := map[
    "1," := 130.81, "1b," := 123.47, "2," := 146.83, "2b," := 138.59,
    "3," := 164.81, "3b," := 155.56, "4," := 174.61, "4b," := 164.81,
    "5," := 196.0, "5b," := 185.0, "6," := 220.0, "6b," := 207.65,
    "7," := 246.94, "7b," := 233.08,
    "1" := 261.63, "1b" := 246.94, "2" := 293.66, "2b" := 277.18,
    "3" := 329.63, "3b" := 311.13, "4" := 349.23, "4b" := 329.63,
    "5" := 392.0, "5b" := 369.99, "6" := 440.0, "6b" := 415.3,
    "7" := 493.88, "7b" := 466.16,
    "1." := 523.25, "1b." := 493.88, "2." := 587.33, "2b." := 554.37,
    "3." := 659.25, "3b." := 622.25, "4." := 698.46, "4b." := 659.25,
    "5." := 783.99, "5b." := 739.99, "6." := 880.0, "6b." := 830.61,
    "7." := 987.77, "7b." := 932.33,
    "0" := 0.0
  ]

  /** `noteFrequencies[note] || 0`: the table's value, 0 for a token the
      table does not know. */
  function Lookup(note: Token): (f: real)
    ensures f >= 0.0
    ensures f > 0.0 <==> note in NoteFrequencies && note != "0"
  {
    if note in NoteFrequencies then NoteFrequencies[note] else 0.0
  }

  /** Every key of the table is a token the note parser can produce, led by
      a scale degree 0 … 7: a degree, an optional flat, an optional octave
      mark. */
  lemma TableKeys()
    ensures forall k :: k in NoteFrequencies ==> TokenShape(k) && '0' <= k[0] <= '7'
  {
  }
}
