/** The game controller (js/main.js, class BabyGame): the one place where the
    sequencer, the note-effect manager and the entity list meet. A tap plays
    the next note of the current song, shows it as a floating label, and on
    a single roll picks at most one family of entities to add. */
module Game {
  import opened Wrappers
  import opened Geometry
  import opened Audio
  import opened Notation
  import opened Sequencer
  import opened Visualizer
  import opened Shapes
  import opened Effects
  import opened Manager

  // ---------------------------------------------------------------------
  // Effect bands

  /** What a tap adds to the entity list, by the roll it draws. */
  datatype Band = NovaBand | SpiralBand | CometBand | ExplosionBand | ShapeBand | MusicOnly

  function BandOf(roll: real): Band {
    if roll < 0.08 then NovaBand
    else if roll < 0.12 then SpiralBand
    else if roll < 0.18 then CometBand
    else if roll < 0.22 then ExplosionBand
    else if roll < 0.3 then ShapeBand
    else MusicOnly
  }

  /** Each band is exactly one interval of the roll, and together they
      cover every roll. */
  lemma BandIntervals(roll: real)
    ensures BandOf(roll) == NovaBand <==> roll < 0.08
    ensures BandOf(roll) == SpiralBand <==> 0.08 <= roll < 0.12
    ensures BandOf(roll) == CometBand <==> 0.12 <= roll < 0.18
    ensures BandOf(roll) == ExplosionBand <==> 0.18 <= roll < 0.22
    ensures BandOf(roll) == ShapeBand <==> 0.22 <= roll < 0.3
    ensures BandOf(roll) == MusicOnly <==> 0.3 <= roll
  {
  }

  /** How many entities a band adds: addShape adds a shape and its three
      particles, each special effect one entity. */
  function Growth(b: Band): nat {
    match b
    case ShapeBand => 4
    case MusicOnly => 0
    case _ => 1
  }

  /** Every random number one tap may draw, grouped by the branch that
      uses it (the spawn-point rolls are separate parameters). */
  datatype TapDraws = TapDraws(
    effect: real,
    direction: real,
    novaSize: real, rays: seq<RayDraw>,
    comet: CometDraw,
    sparkCount: real, sparks: seq<SparkDraw>,
    shape: ShapeDraw, bursts: seq<BurstDraw>)

  /** Enough draws, in range, for whichever band the effect roll picks. */
  predicate DrawsFit(d: TapDraws) {
    && |d.rays| == RayCount
    && |d.sparks| as real >= 15.0 + d.sparkCount * 20.0
    && (forall i :: 0 <= i < |d.sparks| ==> IsRoll(d.sparks[i].color))
    && IsRoll(d.shape.kind) && IsRoll(d.shape.color)
    && |d.bursts| == 3
    && (forall i :: 0 <= i < |d.bursts| ==> IsRoll(d.bursts[i].base.kind) && IsRoll(d.bursts[i].base.color))
  }

  lemma SparkCountFits(limit: real, n: nat)
    requires n as real >= limit
    ensures PassCount(limit) <= n
  {
  }

  /** The entities a tap at (x, y) appends, as values. */
  function Spawned(x: real, y: real, canvas: Canvas, d: TapDraws): seq<EntityState>
    requires DrawsFit(d)
  {
    match BandOf(d.effect)
    case NovaBand =>
      [NovaValue(NewNova(x, y, d.novaSize, d.rays))]
    case SpiralBand =>
      [SpiralValue(SpiralState(x, y, 0.0, SpiralRotationSpeed, SpiralStartRadius, SpiralMaxRadius,
                               SpiralExpandSpeed, 1.0, SpiralDecay, InitialArms()))]
    case CometBand => [CometValue(NewComet(canvas, x, y, d.comet))]
    case ExplosionBand =>
      SparkCountFits(15.0 + d.sparkCount * 20.0, |d.sparks|);
      [ExplosionValue(ExplosionState(x, y, 1.0, ExplosionDecay,
                                     NewSparks(x, y, d.sparks[..PassCount(15.0 + d.sparkCount * 20.0)])))]
    case ShapeBand => [ShapeValue(NewShape(x, y, canvas, d.shape))] + BurstValues(x, y, canvas, d.bursts)
    case MusicOnly => []
  }

  /** A tap adds exactly as many entities as its band says, of that band's
      kind: one special effect, or a main shape followed by three small fast
      fading particles, or nothing. */
  lemma SpawnedFamily(x: real, y: real, canvas: Canvas, d: TapDraws)
    requires DrawsFit(d)
    ensures |Spawned(x, y, canvas, d)| == Growth(BandOf(d.effect))
    ensures var vs := Spawned(x, y, canvas, d);
      match BandOf(d.effect)
      case NovaBand => vs[0].NovaValue? && |vs[0].nova.rays| == RayCount
      case SpiralBand => vs[0].SpiralValue? && |vs[0].spiral.arms| == ArmCount
      case CometBand => vs[0].CometValue? && vs[0].comet.trail == []
      case ExplosionBand => vs[0].ExplosionValue?
      case ShapeBand =>
        (forall i :: 0 <= i < 4 ==> vs[i].ShapeValue? && vs[i].shape.x == x && vs[i].shape.y == y) &&
        vs[0].shape.decay == ShapeDecay &&
        (forall i :: 1 <= i < 4 ==> vs[i].shape.decay == BurstDecay)
      case MusicOnly => true
  {
    var vs := Spawned(x, y, canvas, d);
    if BandOf(d.effect) == ShapeBand {
      var bs := BurstValues(x, y, canvas, d.bursts);
      assert forall i :: 1 <= i < 4 ==> vs[i] == bs[i - 1];
    }
  }

  /** The explosion a tap adds holds between 15 and 35 sparks. */
  lemma SpawnedExplosionSize(x: real, y: real, canvas: Canvas, d: TapDraws)
    requires DrawsFit(d) && IsRoll(d.sparkCount) && BandOf(d.effect) == ExplosionBand
    ensures var vs := Spawned(x, y, canvas, d);
      vs[0].ExplosionValue? && 15 <= |vs[0].explosion.sparks| <= 35
  {
    SparkCountRange(d.sparkCount);
  }

  /** The small particles of a plain-shape tap have sizes in [5, 15). */
  lemma SpawnedParticleSizes(x: real, y: real, canvas: Canvas, d: TapDraws)
    requires DrawsFit(d) && BandOf(d.effect) == ShapeBand
    requires forall i :: 0 <= i < 3 ==>
      IsShapeDraw(d.bursts[i].base) && IsRoll(d.bursts[i].size) && IsRoll(d.bursts[i].vx) && IsRoll(d.bursts[i].vy)
    ensures var vs := Spawned(x, y, canvas, d);
      forall i :: 1 <= i < 4 ==> vs[i].ShapeValue? && 5.0 <= vs[i].shape.size < 15.0
  {
    var vs := Spawned(x, y, canvas, d);
    forall i | 1 <= i < 4
      ensures vs[i].ShapeValue? && 5.0 <= vs[i].shape.size < 15.0
    {
      NewShapeRanges(x, y, canvas, d.bursts[i - 1]);
      assert vs[i] == ShapeValue(NewBurst(x, y, canvas, d.bursts[i - 1]));
    }
  }

  /** handleInput's spawn point. */
  function SpawnPoint(canvas: Canvas, xRoll: real, yRoll: real): Vec {
    Vec(xRoll * canvas.width, yRoll * canvas.height * 0.7)
  }

  /** A key press spawns anywhere across the width, in the top 70% of the
      height. */
  lemma SpawnPointRanges(canvas: Canvas, xRoll: real, yRoll: real)
    requires IsRoll(xRoll) && IsRoll(yRoll)
    ensures canvas.width > 0.0 ==> 0.0 <= SpawnPoint(canvas, xRoll, yRoll).x < canvas.width
    ensures canvas.height > 0.0 ==> 0.0 <= SpawnPoint(canvas, xRoll, yRoll).y < 0.7 * canvas.height
  {
    SpawnAcross(canvas, xRoll, yRoll);
    SpawnDown(canvas, xRoll, yRoll);
  }

  lemma SpawnAcross(canvas: Canvas, xRoll: real, yRoll: real)
    requires IsRoll(xRoll)
    ensures canvas.width > 0.0 ==> 0.0 <= SpawnPoint(canvas, xRoll, yRoll).x < canvas.width
  {
    if canvas.width > 0.0 {
      assert SpawnPoint(canvas, xRoll, yRoll).x == xRoll * canvas.width;
      ScaleBelow(xRoll, canvas.width);
    }
  }

  lemma SpawnDown(canvas: Canvas, xRoll: real, yRoll: real)
    requires IsRoll(yRoll)
    ensures canvas.height > 0.0 ==> 0.0 <= SpawnPoint(canvas, xRoll, yRoll).y < 0.7 * canvas.height
  {
    if canvas.height > 0.0 {
      assert SpawnPoint(canvas, xRoll, yRoll).y == yRoll * canvas.height * 0.7;
      TopBand(yRoll, canvas.height);
    }
  }

  /** A roll of a height h, cut to 70%, lies in [0, 0.7 h). */
  lemma TopBand(r: real, h: real)
    requires IsRoll(r) && h > 0.0
    ensures 0.0 <= r * h * 0.7 < 0.7 * h
  {
    ScaleBelow(r, h);
  }

  // ---------------------------------------------------------------------
  // What a tap does to the music

  /** The current song's notes and the sequencer's cursor. */
  datatype Tune = Tune(notes: seq<Token>, cursor: nat)

  /** playNextNote, on the cursor. */
  function TapTune(t: Option<Tune>): Option<Tune> {
    match t
    case None => None
    case Some(u) => Some(u.(cursor := Advance(u.cursor, |u.notes|)))
  }

  /** The tone playNextNote requests. */
  function TapTones(t: Option<Tune>): seq<Tone> {
    match t
    case None => []
    case Some(u) => ToneFor(NoteAt(u.notes, PlayIndex(u.cursor, |u.notes|)), PlayDuration)
  }

  /** The note effect added after playNextNote, from the sequencer as it is
      then: its displayed note, drifting by its displayed frequency. */
  function TapEffects(x: real, y: real, played: Option<Tune>, last: Option<real>, roll: real): seq<NoteEffect> {
    match played
    case None => []
    case Some(u) =>
      [NewEffect(x, y, DisplayNote(u.notes, u.cursor),
                 MoveDirection(Some(DisplayFrequency(u.notes, u.cursor)), last, roll))]
  }

  function TapLast(played: Option<Tune>, last: Option<real>): Option<real> {
    match played
    case None => last
    case Some(u) => NextLast(last, Some(DisplayFrequency(u.notes, u.cursor)))
  }

  /** With a sequencer, one tap advances it exactly once and adds exactly one
      note effect. The effect shows the note just requested, unless that was
      the song's last note: then it shows the done label with frequency 0,
      drifts sideways, and the remembered frequency stays as it was. */
  lemma TapPlaysOneNote(x: real, y: real, t: Tune, last: Option<real>, roll: real)
    ensures var played := TapTune(Some(t));
      var p := PlayIndex(t.cursor, |t.notes|);
      var effects := TapEffects(x, y, played, last, roll);
      && played.Some? && played.value.cursor == p + 1
      && |effects| == 1 && |TapTones(Some(t))| <= 1
      && (p + 1 < |t.notes| ==> effects[0].note == t.notes[p])
      && (p + 1 >= |t.notes| ==>
            effects[0].note == DoneLabel && effects[0].moveDirection.y == 0.0 &&
            TapLast(played, last) == last)
  {
    DisplayAfterPlay(t.notes, t.cursor);
  }

  // ---------------------------------------------------------------------
  // First interaction

  /** Whether the audio system is started, and whether the sequencer exists. */
  datatype Boot = Boot(audioOn: bool, music: bool)

  const Off: Boot := Boot(false, false)

  /** createShapeAt: the first interaction starts the audio and creates the
      sequencer together. */
  function TapBoot(b: Boot): Boot {
    if !b.audioOn then Boot(true, true) else b
  }

  datatype Input = Tap | Key

  function InputBoot(b: Boot, i: Input): Boot {
    TapBoot(b)
  }

  /** handleInput as js/main.js writes it: the audio is started before
      createShapeAt runs, so createShapeAt's first-interaction branch is
      skipped. */
  function InputBootAsWritten(b: Boot, i: Input): Boot {
    match i
    case Tap => TapBoot(b)
    case Key => TapBoot(b.(audioOn := true))
  }

  function Run(b: Boot, inputs: seq<Input>): Boot
    decreases |inputs|
  {
    if inputs == [] then b else Run(InputBoot(b, inputs[0]), inputs[1..])
  }

  function RunAsWritten(b: Boot, inputs: seq<Input>): Boot
    decreases |inputs|
  {
    if inputs == [] then b else RunAsWritten(InputBootAsWritten(b, inputs[0]), inputs[1..])
  }

  /** Once the audio is on without a sequencer, no input creates one. */
  lemma {:induction false} AsWrittenStuck(b: Boot, inputs: seq<Input>)
    requires b.audioOn
    ensures RunAsWritten(b, inputs) == b
    decreases |inputs|
  {
    if inputs != [] {
      AsWrittenStuck(InputBootAsWritten(b, inputs[0]), inputs[1..]);
    }
  }

  /** A key press as the first interaction leaves the game without any
      music for good, whatever comes after it. */
  lemma KeyFirstNeverPlays(inputs: seq<Input>)
    ensures RunAsWritten(Off, [Key] + inputs) == Boot(true, false)
  {
    assert ([Key] + inputs)[1..] == inputs;
    AsWrittenStuck(Boot(true, false), inputs);
  }

  lemma {:induction false} RunSettled(inputs: seq<Input>)
    ensures Run(Boot(true, true), inputs) == Boot(true, true)
    decreases |inputs|
  {
    if inputs != [] {
      RunSettled(inputs[1..]);
    }
  }

  /** With the corrected handleInput, the sequencer exists exactly when there
      has been at least one interaction, of either kind. */
  lemma RunMusicIffInteraction(inputs: seq<Input>)
    ensures Run(Off, inputs).music <==> |inputs| > 0
    ensures Run(Off, inputs).music == Run(Off, inputs).audioOn
  {
    if inputs != [] {
      RunSettled(inputs[1..]);
    }
  }

  /** `musicVisualizer.update()`, which leaves every entity as it is. */
  method UpdateNotes(v: MusicVisualizer, m: ShapeManager)
    requires v.Valid()
    modifies v
    ensures v.Valid() && v.activeNotes == StepEffects(old(v.activeNotes))
    ensures v.lastNoteFrequency == old(v.lastNoteFrequency)
    ensures m.Values() == old(m.Values())
  {
    NotListed(m.shapes, v);
    v.Update();
  }

  /** `new MusicSystem(audio)`, as far as the game needs it: the library's
      keys, the first song, its first note. The song table itself is stated
      by the MusicSystem constructor. */
  method NewSequencer(audio: TonePlayer) returns (m: MusicSystem)
    ensures fresh(m) && m.Valid() && m.audio == audio
    ensures m.songKeys == LibraryKeys && m.currentSong == "twinkle" && m.currentNoteIndex == 0
  {
    m := new MusicSystem(audio);
  }

  /** The tune a sequencer plays: its current song's notes and its cursor;
      None without a sequencer. */
  ghost function TuneOf(m: MusicSystem?): Option<Tune>
    reads m
    requires m != null ==> m.Valid()
  {
    if m == null then None else Some(Tune(m.CurrentNotes(), m.currentNoteIndex))
  }

  /** The sequencer branch of createShapeAt: with a sequencer, play its next
      note, then show the note and frequency it reports afterwards. */
  method PlayAndShow(m: MusicSystem?, audio: TonePlayer, v: MusicVisualizer, x: real, y: real, roll: real)
    requires (m != null ==> m.Valid() && m.audio == audio) && v.Valid()
    modifies m, audio, v
    ensures (m != null ==> m.Valid()) && v.Valid() && audio.initialized == old(audio.initialized)
    ensures m != null ==> m.songs == old(m.songs) && m.songKeys == old(m.songKeys) && m.currentSong == old(m.currentSong)
    ensures TuneOf(m) == TapTune(old(TuneOf(m)))
    ensures audio.requested == old(audio.requested) + TapTones(old(TuneOf(m)))
    ensures v.activeNotes == old(v.activeNotes) + TapEffects(x, y, TuneOf(m), old(v.lastNoteFrequency), roll)
    ensures v.lastNoteFrequency == TapLast(TuneOf(m), old(v.lastNoteFrequency))
  {
    if m != null {
      m.PlayNextNote();
      var songInfo := m.GetCurrentSongInfo();
      var currentNote := songInfo.currentNote;
      var currentFrequency := m.GetCurrentNoteFrequency();
      DisplayConsistent(m.CurrentNotes(), m.currentNoteIndex);
      v.AddNoteEffect(x, y, currentNote, Some(currentFrequency), roll);
    }
  }

  // ---------------------------------------------------------------------

  /** js/main.js `BabyGame`. The audio system is the one global tone player;
      the canvas keeps its size. */
  class BabyGame {
    const canvas: Canvas
    const audioSystem: TonePlayer
    const shapeManager: ShapeManager
    const musicVisualizer: MusicVisualizer
    var musicSystem: MusicSystem?
    var frameCount: nat

    /** The sequencer exists only once the audio system has been started. */
    ghost predicate Valid()
      reads this, audioSystem, shapeManager, musicVisualizer, musicSystem
    {
      && shapeManager.Valid() && shapeManager.canvas == canvas
      && musicVisualizer.Valid()
      && (musicSystem != null ==> musicSystem.Valid() && musicSystem.audio == audioSystem && audioSystem.initialized)
    }

    ghost function BootState(): Boot
      reads this, audioSystem
    {
      Boot(audioSystem.initialized, musicSystem != null)
    }

    ghost function Music(): Option<Tune>
      reads this, musicSystem
      requires musicSystem != null ==> musicSystem.Valid()
    {
      TuneOf(musicSystem)
    }

    constructor (canvas: Canvas)
      ensures Valid() && BootState() == Off && frameCount == 0
      ensures fresh(audioSystem) && audioSystem.requested == []
      ensures shapeManager.shapes == [] && musicVisualizer.activeNotes == []
    {
      this.canvas := canvas;
      audioSystem := new TonePlayer();
      shapeManager := new ShapeManager(canvas);
      musicVisualizer := new MusicVisualizer();
      musicSystem := null;
      frameCount := 0;
    }

    /** One tap or click at (x, y). `started` is the sequencer the tap
        plays from: a new one at its first note on the first interaction,
        the existing one (or none) otherwise. */
    method CreateShapeAt(x: real, y: real, d: TapDraws) returns (ghost started: Option<Tune>)
      requires Valid() && DrawsFit(d)
      modifies this, audioSystem, musicSystem, musicVisualizer, shapeManager
      ensures Valid()
      ensures BootState() == TapBoot(old(BootState()))
      ensures old(musicSystem) != null ==>
        musicSystem == old(musicSystem) && musicSystem.songs == old(musicSystem.songs) &&
        musicSystem.songKeys == old(musicSystem.songKeys) && musicSystem.currentSong == old(musicSystem.currentSong)
      ensures !old(audioSystem.initialized) ==>
        fresh(musicSystem) && musicSystem.songKeys == LibraryKeys && musicSystem.currentSong == "twinkle"
      ensures started ==
        if old(audioSystem.initialized) then old(Music()) else Some(Tune(musicSystem.CurrentNotes(), 0))
      ensures Music() == TapTune(started)
      ensures audioSystem.requested == old(audioSystem.requested) + TapTones(started)
      ensures musicVisualizer.activeNotes ==
        old(musicVisualizer.activeNotes) + TapEffects(x, y, Music(), old(musicVisualizer.lastNoteFrequency), d.direction)
      ensures musicVisualizer.lastNoteFrequency == TapLast(Music(), old(musicVisualizer.lastNoteFrequency))
      ensures |shapeManager.shapes| == |old(shapeManager.shapes)| + Growth(BandOf(d.effect))
      ensures shapeManager.shapes[..|old(shapeManager.shapes)|] == old(shapeManager.shapes)
      ensures shapeManager.Values() == old(shapeManager.Values()) + Spawned(x, y, canvas, d)
      ensures frameCount == old(frameCount)
    {
      StartMusic();
      started := Music();
      PlayTapNote(x, y, d.direction);
      SpawnEffect(x, y, d);
    }

    /** The first-interaction check of createShapeAt. */
    method StartMusic()
      requires Valid()
      modifies this`musicSystem, audioSystem
      ensures Valid()
      ensures BootState() == TapBoot(old(BootState()))
      ensures old(audioSystem.initialized) ==> musicSystem == old(musicSystem)
      ensures !old(audioSystem.initialized) ==>
        fresh(musicSystem) && musicSystem.songKeys == LibraryKeys && musicSystem.currentSong == "twinkle" &&
        musicSystem.currentNoteIndex == 0
      ensures audioSystem.requested == old(audioSystem.requested)
      ensures shapeManager.Values() == old(shapeManager.Values())
    {
      NotListed(shapeManager.shapes, audioSystem);
      NotListed(shapeManager.shapes, this);
      if !audioSystem.initialized {
        audioSystem.Initialize();
        musicSystem := NewSequencer(audioSystem);
      }
      ValuesFramed(shapeManager.shapes);
    }

    /** Play the next note and show it, when there is a sequencer. */
    method PlayTapNote(x: real, y: real, roll: real)
      requires Valid()
      modifies musicSystem, audioSystem, musicVisualizer
      ensures Valid()
      ensures musicSystem != null ==>
        musicSystem.songs == old(musicSystem.songs) && musicSystem.songKeys == old(musicSystem.songKeys) &&
        musicSystem.currentSong == old(musicSystem.currentSong)
      ensures audioSystem.initialized == old(audioSystem.initialized)
      ensures Music() == TapTune(old(Music()))
      ensures audioSystem.requested == old(audioSystem.requested) + TapTones(old(Music()))
      ensures musicVisualizer.activeNotes ==
        old(musicVisualizer.activeNotes) + TapEffects(x, y, Music(), old(musicVisualizer.lastNoteFrequency), roll)
      ensures musicVisualizer.lastNoteFrequency == TapLast(Music(), old(musicVisualizer.lastNoteFrequency))
      ensures shapeManager.Values() == old(shapeManager.Values())
    {
      NotListed(shapeManager.shapes, audioSystem);
      NotListed(shapeManager.shapes, musicVisualizer);
      if musicSystem != null {
        NotListed(shapeManager.shapes, musicSystem);
      }
      PlayAndShow(musicSystem, audioSystem, musicVisualizer, x, y, roll);
      ValuesFramed(shapeManager.shapes);
    }

    /** The effect-band dispatch of createShapeAt. */
    method SpawnEffect(x: real, y: real, d: TapDraws)
      requires Valid() && DrawsFit(d)
      modifies shapeManager
      ensures Valid()
      ensures |shapeManager.shapes| == |old(shapeManager.shapes)| + Growth(BandOf(d.effect))
      ensures shapeManager.shapes[..|old(shapeManager.shapes)|] == old(shapeManager.shapes)
      ensures shapeManager.Values() == old(shapeManager.Values()) + Spawned(x, y, canvas, d)
    {
      var effectRoll := d.effect;
      if effectRoll < 0.08 {
        shapeManager.AddSupernova(x, y, d.novaSize, d.rays);
      } else if effectRoll < 0.12 {
        shapeManager.AddSpiral(x, y);
      } else if effectRoll < 0.18 {
        shapeManager.AddComet(x, y, d.comet);
      } else if effectRoll < 0.22 {
        shapeManager.AddExplosion(x, y, d.sparkCount, d.sparks);
      } else if effectRoll < 0.3 {
        shapeManager.AddShape(x, y, d.shape, d.bursts);
      }
    }

    /** A key press: a tap at a random point of the top 70% of the canvas.
        The audio system is left for createShapeAt to start, together with
        the sequencer. */
    method HandleInput(xRoll: real, yRoll: real, d: TapDraws) returns (ghost started: Option<Tune>)
      requires Valid() && DrawsFit(d) && IsRoll(xRoll) && IsRoll(yRoll)
      modifies this, audioSystem, musicSystem, musicVisualizer, shapeManager
      ensures Valid()
      ensures BootState() == InputBoot(old(BootState()), Key)
      ensures old(BootState()) == Off ==>
        musicSystem != null && |musicVisualizer.activeNotes| == |old(musicVisualizer.activeNotes)| + 1
      ensures started ==
        if old(audioSystem.initialized) then old(Music()) else Some(Tune(musicSystem.CurrentNotes(), 0))
      ensures Music() == TapTune(started)
      ensures audioSystem.requested == old(audioSystem.requested) + TapTones(started)
      ensures var p := SpawnPoint(canvas, xRoll, yRoll);
        musicVisualizer.activeNotes ==
          old(musicVisualizer.activeNotes) + TapEffects(p.x, p.y, Music(), old(musicVisualizer.lastNoteFrequency), d.direction)
      ensures musicVisualizer.lastNoteFrequency == TapLast(Music(), old(musicVisualizer.lastNoteFrequency))
      ensures var p := SpawnPoint(canvas, xRoll, yRoll);
        shapeManager.Values() == old(shapeManager.Values()) + Spawned(p.x, p.y, canvas, d)
      ensures frameCount == old(frameCount)
    {
      var p := SpawnPoint(canvas, xRoll, yRoll);
      started := CreateShapeAt(p.x, p.y, d);
    }

    /** handleInput as js/main.js writes it: the audio system is started
        first, so a key press as the first interaction never creates the
        sequencer, and it plays and shows nothing. */
    method HandleInputAsWritten(xRoll: real, yRoll: real, d: TapDraws) returns (ghost started: Option<Tune>)
      requires Valid() && DrawsFit(d) && IsRoll(xRoll) && IsRoll(yRoll)
      modifies this, audioSystem, musicSystem, musicVisualizer, shapeManager
      ensures Valid()
      ensures BootState() == InputBootAsWritten(old(BootState()), Key)
      ensures old(BootState()) == Off ==>
        musicSystem == null && audioSystem.requested == old(audioSystem.requested) &&
        musicVisualizer.activeNotes == old(musicVisualizer.activeNotes)
      ensures started == old(Music())
      ensures Music() == TapTune(started)
      ensures audioSystem.requested == old(audioSystem.requested) + TapTones(started)
      ensures var p := SpawnPoint(canvas, xRoll, yRoll);
        musicVisualizer.activeNotes ==
          old(musicVisualizer.activeNotes) + TapEffects(p.x, p.y, Music(), old(musicVisualizer.lastNoteFrequency), d.direction)
      ensures musicVisualizer.lastNoteFrequency == TapLast(Music(), old(musicVisualizer.lastNoteFrequency))
      ensures var p := SpawnPoint(canvas, xRoll, yRoll);
        shapeManager.Values() == old(shapeManager.Values()) + Spawned(p.x, p.y, canvas, d)
      ensures frameCount == old(frameCount)
    {
      if !audioSystem.initialized {
        audioSystem.Initialize();
      }
      var p := SpawnPoint(canvas, xRoll, yRoll);
      started := CreateShapeAt(p.x, p.y, d);
    }

    /** One frame: count it, update every entity, then every note effect.
        spiralDraws[i] is what the i-th entity draws if it is a spiral. */
    method Update(spiralDraws: seq<seq<ArmDraw>>)
      requires Valid() && FitsAll(shapeManager.Values(), spiralDraws)
      modifies this, shapeManager, Objs(shapeManager.shapes), musicVisualizer
      ensures Valid()
      ensures frameCount == old(frameCount) + 1
      ensures shapeManager.Values() == ManagerStep(old(shapeManager.Values()), spiralDraws)
      ensures musicVisualizer.activeNotes == StepEffects(old(musicVisualizer.activeNotes))
      ensures musicVisualizer.lastNoteFrequency == old(musicVisualizer.lastNoteFrequency)
      ensures musicSystem == old(musicSystem) && Music() == old(Music())
      ensures audioSystem.requested == old(audioSystem.requested)
    {
      NotListed(shapeManager.shapes, this);
      NotListed(shapeManager.shapes, audioSystem);
      if musicSystem != null {
        NotListed(shapeManager.shapes, musicSystem);
      }
      frameCount := frameCount + 1;
      shapeManager.Update(spiralDraws);
      UpdateNotes(musicVisualizer, shapeManager);
    }
  }
}
