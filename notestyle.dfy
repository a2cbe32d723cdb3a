/** How a note effect looks (js/music.js, MusicVisualizer.getNoteColor,
    adjustBrightness and getNoteText): a colour chosen by scale degree and
    shaded by the flat and octave marks, and a solfège label. */
module NoteStyle {
  import opened Wrappers
  import opened Seqs
  import opened Notation
  import opened Geometry

  // ---------------------------------------------------------------------
  // Hexadecimal colours "#rrggbb"

  predicate IsHexDigit(c: char) {
    '0' <= c <= '9' || 'a' <= c <= 'f' || 'A' <= c <= 'F'
  }

  predicate IsLowerHexDigit(c: char) {
    '0' <= c <= '9' || 'a' <= c <= 'f'
  }

  /** parseInt of one hexadecimal digit. */
  function HexValue(c: char): (v: nat)
    requires IsHexDigit(c)
    ensures v < 16
  {
    if '0' <= c <= '9' then (c - '0') as nat
    else if 'a' <= c <= 'f' then (c - 'a') as nat + 10
    else (c - 'A') as nat + 10
  }

  /** Number.prototype.toString(16) of one digit value: lower case. */
  function HexDigit(v: nat): (c: char)
    requires v < 16
    ensures IsLowerHexDigit(c) && HexValue(c) == v
  {
    if v < 10 then ('0' as int + v) as char else ('a' as int + v - 10) as char
  }

  lemma HexDigitOfValue(c: char)
    requires IsLowerHexDigit(c)
    ensures HexDigit(HexValue(c)) == c
  {
  }

  predicate IsColor(s: string) {
    |s| == 7 && s[0] == '#' && forall i :: 1 <= i < 7 ==> IsHexDigit(s[i])
  }

  /** The colours the code itself writes: lower-case digits only. */
  predicate IsLowerColor(s: string) {
    |s| == 7 && s[0] == '#' && forall i :: 1 <= i < 7 ==> IsLowerHexDigit(s[i])
  }

  datatype Rgb = Rgb(r: int, g: int, b: int)

  predicate InRange(c: Rgb) {
    0 <= c.r <= 255 && 0 <= c.g <= 255 && 0 <= c.b <= 255
  }

  /** parseInt(hex.slice(i, i + 2), 16). */
  function ParseByte(hi: char, lo: char): (v: int)
    requires IsHexDigit(hi) && IsHexDigit(lo)
    ensures 0 <= v <= 255
  {
    16 * HexValue(hi) + HexValue(lo)
  }

  function ParseColor(hex: string): (c: Rgb)
    requires IsColor(hex)
    ensures InRange(c)
  {
    Rgb(ParseByte(hex[1], hex[2]), ParseByte(hex[3], hex[4]), ParseByte(hex[5], hex[6]))
  }

  /** v.toString(16).padStart(2, "0") for a byte value. */
  function FormatByte(v: int): (s: string)
    requires 0 <= v <= 255
    ensures |s| == 2 && IsLowerHexDigit(s[0]) && IsLowerHexDigit(s[1])
    ensures ParseByte(s[0], s[1]) == v
  {
    [HexDigit(v / 16), HexDigit(v % 16)]
  }

  function FormatColor(c: Rgb): (s: string)
    requires InRange(c)
    ensures IsLowerColor(s)
  {
    "#" + FormatByte(c.r) + FormatByte(c.g) + FormatByte(c.b)
  }

  /** Formatting then parsing gives the channels back. */
  lemma ParseFormatColor(c: Rgb)
    requires InRange(c)
    ensures ParseColor(FormatColor(c)) == c
  {
    var s := FormatColor(c);
    assert s[1..3] == FormatByte(c.r) && s[3..5] == FormatByte(c.g) && s[5..7] == FormatByte(c.b);
  }

  lemma FormatByteOfDigits(hi: char, lo: char)
    requires IsLowerHexDigit(hi) && IsLowerHexDigit(lo)
    ensures FormatByte(ParseByte(hi, lo)) == [hi, lo]
  {
    var v := ParseByte(hi, lo);
    assert v / 16 == HexValue(hi) && v % 16 == HexValue(lo);
    HexDigitOfValue(hi);
    HexDigitOfValue(lo);
  }

  /** Parsing then formatting gives a lower-case colour back. */
  lemma FormatParseColor(hex: string)
    requires IsLowerColor(hex)
    ensures FormatColor(ParseColor(hex)) == hex
  {
    FormatByteOfDigits(hex[1], hex[2]);
    FormatByteOfDigits(hex[3], hex[4]);
    FormatByteOfDigits(hex[5], hex[6]);
    assert hex == "#" + [hex[1], hex[2]] + [hex[3], hex[4]] + [hex[5], hex[6]];
  }

  // ---------------------------------------------------------------------
  // adjustBrightness

  /** Math.min(255, Math.max(0, Math.floor(c * factor))). */
  function ScaleChannel(c: int, factor: real): (v: int)
    ensures 0 <= v <= 255
  {
    var scaled := (c as real * factor).Floor;
    if scaled < 0 then 0 else if scaled > 255 then 255 else scaled
  }

  function AdjustBrightness(hex: string, factor: real): (out: string)
    requires IsColor(hex)
    ensures IsLowerColor(out)
    ensures var c := ParseColor(hex);
      ParseColor(out) == Rgb(ScaleChannel(c.r, factor), ScaleChannel(c.g, factor), ScaleChannel(c.b, factor))
  {
    var c := ParseColor(hex);
    var scaled := Rgb(ScaleChannel(c.r, factor), ScaleChannel(c.g, factor), ScaleChannel(c.b, factor));
    ParseFormatColor(scaled);
    FormatColor(scaled)
  }

  /** Every channel is at most the first colour's in the second. */
  predicate NoBrighter(a: Rgb, b: Rgb) {
    a.r <= b.r && a.g <= b.g && a.b <= b.b
  }

  lemma ScaleDown(c: int, factor: real)
    requires 0 <= c <= 255 && factor <= 1.0
    ensures ScaleChannel(c, factor) <= c
  {
    var x := c as real;
    assert x * factor <= x by {
      MulNonNegative(x, 1.0 - factor);
      assert x * (1.0 - factor) == x - x * factor;
    }
    assert x * factor <= c as real;
    FloorAtMost(x * factor, c);
  }

  lemma FloorAtMost(y: real, c: int)
    requires y <= c as real
    ensures y.Floor <= c
  {
  }

  lemma ScaleUp(c: int, factor: real)
    requires 0 <= c <= 255 && factor >= 1.0
    ensures ScaleChannel(c, factor) >= c
  {
    var x := c as real;
    assert x * factor >= x by {
      MulNonNegative(x, factor - 1.0);
      assert x * (factor - 1.0) == x * factor - x;
    }
  }

  /** A factor of at most 1 never brightens a channel. */
  lemma DarkenNeverBrightens(hex: string, factor: real)
    requires IsColor(hex) && factor <= 1.0
    ensures NoBrighter(ParseColor(AdjustBrightness(hex, factor)), ParseColor(hex))
  {
    var c := ParseColor(hex);
    ScaleDown(c.r, factor);
    ScaleDown(c.g, factor);
    ScaleDown(c.b, factor);
  }

  /** A factor of at least 1 never darkens a channel. */
  lemma BrightenNeverDarkens(hex: string, factor: real)
    requires IsColor(hex) && factor >= 1.0
    ensures NoBrighter(ParseColor(hex), ParseColor(AdjustBrightness(hex, factor)))
  {
    var c := ParseColor(hex);
    ScaleUp(c.r, factor);
    ScaleUp(c.g, factor);
    ScaleUp(c.b, factor);
  }

  /** Factor 1 returns a lower-case colour unchanged. */
  lemma UnitFactor(hex: string)
    requires IsLowerColor(hex)
    ensures AdjustBrightness(hex, 1.0) == hex
  {
    var c := ParseColor(hex);
    assert ScaleChannel(c.r, 1.0) == c.r && ScaleChannel(c.g, 1.0) == c.g && ScaleChannel(c.b, 1.0) == c.b;
    FormatParseColor(hex);
  }

  // ---------------------------------------------------------------------
  // getNoteColor and getNoteText

  predicate IsMark(c: char) {
    c == ',' || c == '.' || c == 'b'
  }

  predicate NotMark(c: char) {
    !IsMark(c)
  }

  /** note.replace(/[,.b]/g, ""): the note without its flat and octave marks. */
  function StripMarks(note: string): string {
    Filter(note, NotMark)
  }

  /** colors[baseNote] || "#ffffff": one colour per scale degree and the rest;
      white for anything else. */
  function DegreeColor(base: string): (color: string)
    ensures IsLowerColor(color)
  {
    if base == "1" then "#ff6b6b"
    else if base == "2" then "#4ecdc4"
    else if base == "3" then "#45b7d1"
    else if base == "4" then "#96ceb4"
    else if base == "5" then "#feca57"
    else if base == "6" then "#ff9ff3"
    else if base == "7" then "#a8e6cf"
    else if base == "0" then "#95a5a6"
    else "#ffffff"
  }

  /** Brightness factors: a flat is darker, the low octave darker still,
      the high octave brighter. */
  const FlatShade: real := 0.8
  const LowShade: real := 0.7
  const HighShade: real := 1.3

  function GetNoteColor(note: string): (color: string)
    ensures IsLowerColor(color)
  {
    var base := DegreeColor(StripMarks(note));
    var flat := if 'b' in note then AdjustBrightness(base, FlatShade) else base;
    if ',' in note then AdjustBrightness(flat, LowShade)
    else if '.' in note then AdjustBrightness(flat, HighShade)
    else flat
  }

  /** The colour of the note's scale degree, before any shading. */
  function BaseColor(note: string): (color: string)
    ensures IsLowerColor(color)
  {
    DegreeColor(StripMarks(note))
  }

  /** A note without marks has its degree's colour. */
  lemma UnmarkedColor(note: string)
    requires forall i :: 0 <= i < |note| ==> NotMark(note[i])
    ensures GetNoteColor(note) == DegreeColor(note)
  {
    FilterAllKept(note, NotMark);
  }

  /** Low-octave notes are never brighter than their degree, in any channel. */
  lemma LowOctaveNoBrighter(note: string)
    requires ',' in note
    ensures NoBrighter(ParseColor(GetNoteColor(note)), ParseColor(BaseColor(note)))
  {
    var base := BaseColor(note);
    if 'b' in note {
      var flat := AdjustBrightness(base, FlatShade);
      DarkenNeverBrightens(base, FlatShade);
      DarkenNeverBrightens(flat, LowShade);
    } else {
      DarkenNeverBrightens(base, LowShade);
    }
  }

  /** A flat without an upper-octave mark is never brighter than its degree. */
  lemma FlatNoBrighter(note: string)
    requires 'b' in note && '.' !in note
    ensures NoBrighter(ParseColor(GetNoteColor(note)), ParseColor(BaseColor(note)))
  {
    var base := BaseColor(note);
    var flat := AdjustBrightness(base, FlatShade);
    DarkenNeverBrightens(base, FlatShade);
    if ',' in note {
      DarkenNeverBrightens(flat, LowShade);
    }
  }

  /** A high-octave note without other marks is never darker than its degree. */
  lemma HighOctaveNoDarker(note: string)
    requires '.' in note && ',' !in note && 'b' !in note
    ensures NoBrighter(ParseColor(BaseColor(note)), ParseColor(GetNoteColor(note)))
  {
    BrightenNeverDarkens(BaseColor(note), HighShade);
  }

  /** texts[baseNote] || "♪". */
  function DegreeName(base: string): string {
    if base == "1" then "Do"
    else if base == "2" then "Re"
    else if base == "3" then "Mi"
    else if base == "4" then "Fa"
    else if base == "5" then "So"
    else if base == "6" then "La"
    else if base == "7" then "Ti"
    else "♪"
  }

  /** The part of a label that the marks add. */
  function MarkSuffix(note: string): string {
    (if 'b' in note then "♭" else "") +
    (if ',' in note then "₋" else if '.' in note then "⁺" else "")
  }

  function GetNoteText(note: string): string {
    DegreeName(StripMarks(note)) + MarkSuffix(note)
  }

  // Reading a label back

  function DegreeOfName(name: string): Option<char> {
    if name == "Do" then Some('1')
    else if name == "Re" then Some('2')
    else if name == "Mi" then Some('3')
    else if name == "Fa" then Some('4')
    else if name == "So" then Some('5')
    else if name == "La" then Some('6')
    else if name == "Ti" then Some('7')
    else None
  }

  function MarksOfSuffix(suffix: string): Option<string> {
    if suffix == "" then Some("")
    else if suffix == "♭" then Some("b")
    else if suffix == "₋" then Some(",")
    else if suffix == "⁺" then Some(".")
    else if suffix == "♭₋" then Some("b,")
    else if suffix == "♭⁺" then Some("b.")
    else None
  }

  /** The token a label was made from, for tokens of the seven degrees. */
  function ReadNoteText(text: string): Option<Token> {
    if |text| < 2 then None
    else
      var degree := DegreeOfName(text[..2]);
      var marks := MarksOfSuffix(text[2..]);
      if degree.Some? && marks.Some? then Some([degree.value] + marks.value) else None
  }

  lemma ReadDegreeName(d: char)
    requires '1' <= d <= '7'
    ensures |DegreeName([d])| == 2 && DegreeOfName(DegreeName([d])) == Some(d)
  {
  }

  lemma StripShaped(t: Token)
    requires TokenShape(t) && NotMark(t[0])
    ensures StripMarks(t) == [t[0]]
  {
    assert t == [t[0]] + t[1..];
    FilterAppend([t[0]], t[1..], NotMark);
    FilterNoneKept(t[1..], NotMark);
  }

  lemma ReadMarkSuffix(t: Token)
    requires TokenShape(t) && NotMark(t[0])
    ensures MarksOfSuffix(MarkSuffix(t)) == Some(t[1..])
  {
    var m := t[1..];
    assert t == [t[0]] + m;
    assert 'b' in t <==> 'b' in m;
    assert ',' in t <==> ',' in m;
    assert '.' in t <==> '.' in m;
    if m == "" {
      assert MarkSuffix(t) == "";
    } else if m == "b" {
      assert MarkSuffix(t) == "♭";
    } else if m == "," {
      assert MarkSuffix(t) == "₋";
    } else if m == "." {
      assert MarkSuffix(t) == "⁺";
    } else if m == "b," {
      assert MarkSuffix(t) == "♭₋";
    } else {
      assert MarkSuffix(t) == "♭⁺";
    }
  }

  /** Every label of a token of degree 1 to 7 reads back as that token. */
  lemma ReadGetNoteText(t: Token)
    requires TokenShape(t) && '1' <= t[0] <= '7'
    ensures ReadNoteText(GetNoteText(t)) == Some(t)
  {
    StripShaped(t);
    ReadDegreeName(t[0]);
    ReadMarkSuffix(t);
    var name, suffix := DegreeName([t[0]]), MarkSuffix(t);
    var text := name + suffix;
    assert text[..2] == name && text[2..] == suffix;
    assert t == [t[0]] + t[1..];
  }

  /** So two different such tokens never share a label. */
  lemma NoteTextInjective(a: Token, b: Token)
    requires TokenShape(a) && '1' <= a[0] <= '7'
    requires TokenShape(b) && '1' <= b[0] <= '7'
    requires GetNoteText(a) == GetNoteText(b)
    ensures a == b
  {
    ReadGetNoteText(a);
    ReadGetNoteText(b);
  }
}
