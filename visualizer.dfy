/** The note-effect manager (js/music.js, class MusicVisualizer): one
    floating label per played note, drifting in a direction that follows
    the melody's contour, fading out and then removed. */
module Visualizer {
  import opened Wrappers
  import opened Seqs
  import opened Geometry
  import opened NoteStyle

  datatype NoteEffect = NoteEffect(
    x: real, y: real, note: string, size: real, life: real, decay: real,
    color: string, text: string, moveDirection: Vec)

  const EffectSize: real := 30.0
  const EffectLife: real := 1.0
  const EffectDecay: real := 0.02
  /** How much an effect's size grows per update. */
  const EffectGrowth: real := 0.5

  /** JavaScript's `!f` on a frequency: missing, or zero. */
  predicate Silent(f: Option<real>) {
    f.None? || f.value == 0.0
  }

  /** calculateMoveDirection: sideways for a rest, up for the first note and
      for a rise in pitch, down for a fall, sideways when the pitch repeats. */
  function MoveDirection(current: Option<real>, last: Option<real>, roll: real): Vec {
    if Silent(current) then Vec((roll - 0.5) * 3.0, 0.0)
    else if Silent(last) then Vec(0.0, -2.0)
    else if current.value > last.value then Vec(0.0, -3.0)
    else if current.value < last.value then Vec(0.0, 2.0)
    else Vec((roll - 0.5) * 4.0, 0.0)
  }

  /** An effect rises exactly when a note sounds that is the first one or
      higher than the previous one, and falls exactly when it is lower. */
  lemma MoveDirectionContour(current: Option<real>, last: Option<real>, roll: real)
    ensures var v := MoveDirection(current, last, roll);
      (v.y < 0.0 <==> !Silent(current) && (Silent(last) || current.value > last.value)) &&
      (v.y > 0.0 <==> !Silent(current) && !Silent(last) && current.value < last.value) &&
      (v.y == -2.0 <==> !Silent(current) && Silent(last)) &&
      (v.y == -3.0 <==> !Silent(current) && !Silent(last) && current.value > last.value)
  {
  }

  /** Sideways drifts stay within their ranges: [-1.5, 1.5) after a rest,
      [-2, 2) after a repeated pitch; vertical moves have no sideways part. */
  lemma MoveDirectionRanges(current: Option<real>, last: Option<real>, roll: real)
    requires IsRoll(roll)
    ensures var v := MoveDirection(current, last, roll);
      (Silent(current) ==> v.y == 0.0 && -1.5 <= v.x < 1.5) &&
      (!Silent(current) && !Silent(last) && current.value == last.value ==>
         v.y == 0.0 && -2.0 <= v.x < 2.0) &&
      (v.y != 0.0 ==> v.x == 0.0)
  {
  }

  /** lastNoteFrequency after an effect for frequency f: only a positive
      frequency replaces it. */
  function NextLast(last: Option<real>, f: Option<real>): Option<real> {
    if f.Some? && f.value > 0.0 then f else last
  }

  predicate PositiveOrNone(f: Option<real>) {
    f.None? || f.value > 0.0
  }

  /** The remembered frequency is always positive, and it is always the most
      recent positive one. */
  lemma NextLastKeepsPositive(last: Option<real>, f: Option<real>)
    requires PositiveOrNone(last)
    ensures PositiveOrNone(NextLast(last, f))
    ensures NextLast(last, f) == last || NextLast(last, f) == f
    ensures (f.Some? && f.value > 0.0) <==> NextLast(last, f) == f && f.Some?
  {
  }

  /** The record addNoteEffect pushes. */
  function NewEffect(x: real, y: real, note: string, direction: Vec): NoteEffect {
    NoteEffect(x, y, note, EffectSize, EffectLife, EffectDecay,
               GetNoteColor(note), GetNoteText(note), direction)
  }

  /** One update of one effect: move by its direction, fade, grow. */
  function Drift(e: NoteEffect): NoteEffect {
    e.(x := e.x + e.moveDirection.x, y := e.y + e.moveDirection.y,
       life := e.life - e.decay, size := e.size + EffectGrowth)
  }

  predicate Alive(e: NoteEffect) {
    e.life > 0.0
  }

  function StepEffects(es: seq<NoteEffect>): seq<NoteEffect> {
    Filter(Map(es, Drift), Alive)
  }

  /** After an update exactly the effects still alive remain, in their
      original order, each as often as before. */
  lemma StepEffectsKeepsLiving(es: seq<NoteEffect>)
    ensures ExactlyKept(StepEffects(es), Map(es, Drift), Alive)
    ensures |StepEffects(es)| <= |es|
  {
    FilterExactlyKept(Map(es, Drift), Alive);
    FilterLength(Map(es, Drift), Alive);
  }

  /** An effect survives an update exactly when its life stays positive. */
  lemma SurvivesUpdate(es: seq<NoteEffect>, i: nat)
    requires i < |es|
    ensures Drift(es[i]) in StepEffects(es) <==> es[i].life - es[i].decay > 0.0
  {
    var moved := Map(es, Drift);
    assert moved[i] == Drift(es[i]);
    FilterCount(moved, Alive, Drift(es[i]));
    assert multiset(moved)[Drift(es[i])] > 0;
  }

  /** k updates of one effect, ignoring removal. */
  function DriftN(e: NoteEffect, k: nat): NoteEffect
    decreases k
  {
    if k == 0 then e else Drift(DriftN(e, k - 1))
  }

  lemma {:induction false} DriftNClosedForm(e: NoteEffect, k: nat)
    ensures DriftN(e, k) == e.(
      x := e.x + k as real * e.moveDirection.x, y := e.y + k as real * e.moveDirection.y,
      life := e.life - k as real * e.decay, size := e.size + k as real * EffectGrowth)
    decreases k
  {
    if k > 0 {
      DriftNClosedForm(e, k - 1);
      var j := (k - 1) as real;
      assert k as real * e.moveDirection.x == j * e.moveDirection.x + e.moveDirection.x;
      assert k as real * e.moveDirection.y == j * e.moveDirection.y + e.moveDirection.y;
      assert k as real * e.decay == j * e.decay + e.decay;
    }
  }

  /** A new effect is alive for its first 49 updates and gone at the 50th. */
  lemma EffectLifetime(x: real, y: real, note: string, direction: Vec, k: nat)
    ensures Alive(DriftN(NewEffect(x, y, note, direction), k)) <==> k < 50
  {
    DriftNClosedForm(NewEffect(x, y, note, direction), k);
  }

  class MusicVisualizer {
    var activeNotes: seq<NoteEffect>
    var lastNoteFrequency: Option<real>

    ghost predicate Valid()
      reads this
    {
      PositiveOrNone(lastNoteFrequency)
    }

    constructor ()
      ensures Valid() && activeNotes == [] && lastNoteFrequency == None
    {
      activeNotes := [];
      lastNoteFrequency := None;
    }

    /** Push one effect, drifting as the pitch contour says, then remember
        the frequency if it is positive. */
    method AddNoteEffect(x: real, y: real, note: string, frequency: Option<real>, roll: real)
      requires Valid()
      modifies this
      ensures Valid()
      ensures activeNotes == old(activeNotes) +
        [NewEffect(x, y, note, MoveDirection(frequency, old(lastNoteFrequency), roll))]
      ensures lastNoteFrequency == NextLast(old(lastNoteFrequency), frequency)
    {
      var moveDirection := MoveDirection(frequency, lastNoteFrequency, roll);
      var effect := NewEffect(x, y, note, moveDirection);
      activeNotes := activeNotes + [effect];
      if frequency.Some? && frequency.value > 0.0 {
        lastNoteFrequency := frequency;
      }
    }

    /** Move, fade and grow every effect in place, then drop the dead ones. */
    method Update()
      modifies this
      ensures activeNotes == StepEffects(old(activeNotes))
      ensures lastNoteFrequency == old(lastNoteFrequency)
    {
      var i := 0;
      while i < |activeNotes|
        invariant 0 <= i <= |activeNotes| == |old(activeNotes)|
        invariant forall j :: 0 <= j < i ==> activeNotes[j] == Drift(old(activeNotes)[j])
        invariant forall j :: i <= j < |activeNotes| ==> activeNotes[j] == old(activeNotes)[j]
        invariant lastNoteFrequency == old(lastNoteFrequency)
      {
        var note := activeNotes[i];
        note := note.(x := note.x + note.moveDirection.x);
        note := note.(y := note.y + note.moveDirection.y);
        note := note.(life := note.life - note.decay);
        note := note.(size := note.size + EffectGrowth);
        activeNotes := activeNotes[i := note];
        i := i + 1;
      }
      assert activeNotes == Map(old(activeNotes), Drift);
      activeNotes := Filter(activeNotes, Alive);
    }

    function GetActiveCount(): (n: nat)
      reads this
      ensures n == |activeNotes|
    {
      |activeNotes|
    }
  }
}
