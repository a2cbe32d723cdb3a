# Space Music Box — a verified model of the game core

Space Music Box is a browser toy for small children. Every key press, click
or touch:

- plays the next note of a built-in nursery song;
- floats that note's name (`Do`, `Re`, …) across the screen;
- sometimes spawns a visual effect: a supernova, a spiral nebula, a comet, an
  explosion, or a burst of bouncing shapes.

This project models the program's core in Dafny and proves properties of the
model. It has five parts:

- **Note notation** (`notation.dfy`, module `Notation`).
  - Songs are written in numbered notation. `1`…`7` are Do…Ti and `0` is a
    rest.
  - A trailing `,` lowers the note an octave, `.` raises it, and a `b`
    before the octave mark makes it flat.
  - `ParseNotes` is the tokenizing loop. It is proved equal to the
    recursive reading `Tokenize`.
  - `Lookup` is the frequency table.
- **The sequencer** (`sequencer.dfy`, class `Sequencer.MusicSystem`). It holds:
  - the song library, with songs plus their keys in insertion order;
  - the current song and the note cursor.
  It plays one note per interaction, wraps at the end of a song, switches
  songs cyclically and adds songs. Tones go to the sound output
  `Audio.TonePlayer`, which records every tone that is asked for.
- **The note effects** (`notestyle.dfy`, `visualizer.dfy`, class
  `Visualizer.MusicVisualizer`).
  - Each played note becomes a label. Its colour depends on the scale
    degree: flats and the low octave are darker, the high octave brighter.
  - Its direction follows the melody's contour, and it fades out over 50
    frames.
- **The entity engine** (`shapes.dfy`, `effects.dfy`, `manager.dfy`).
  - `Shape`, `Supernova`, `Spiral`, `Comet` and `Explosion` are classes
    updated in place, one step per frame.
  - Each class's `Value()` is a snapshot, and its `Update` is proved to move
    that snapshot by a pure step function (`ShapeStep`, `NovaStep`, …).
  - The lemmas are about those step functions: bouncing keeps a shape inside
    the canvas, lifetimes are exact frame counts, a comet's trail is a
    sliding window, and dead sparks are removed.
  - `Manager.ShapeManager` owns the heterogeneous entity list. One update
    steps every entity and then drops exactly the dead ones, in order.
- **The game controller** (`game.dfy`, class `Game.BabyGame`).
  - On the first interaction it switches the audio on and builds the
    sequencer.
  - On each tap it plays a note, shows the note's label, and picks an effect
    by a random roll in fixed bands: 8 % supernova, 4 % spiral, 6 % comet,
    4 % explosion, 8 % shapes, and otherwise music only.
  - Each frame it advances the entities and the note effects.

Randomness is an explicit input. Every `Math.random()` becomes a "roll" in
[0, 1) inside a draw record (`TapDraws`, `ShapeDraw`, `RayDraw`, …).
`cos`/`sin` of a random angle become a pair of draws in [-1, 1]. The
supernova's ray angle is not random: ray i points at the fixed angle
2πi/20 (`js/effects.js:21`). The model gives each ray a draw for that
cosine and sine, so it does not require the rays to be evenly spaced. Floating
point numbers are modelled as exact reals.

## Model

| member | source | states |
|---|---|---|
| Notation.TokenLength | js/music.js:120-136 | a token taken from a non-empty input is one to three characters long and never runs past the end of the input |
| Notation.TokenizeAt | js/music.js:113-142 | one step of the scan: a space is skipped; otherwise the token starting there is taken whole, and it ends after the optional `b` and the optional `,`/`.` |
| Notation.ParseNotes | js/music.js:110-145 | the scanning loop returns exactly the recursive tokenization `Tokenize` of the note string |
| Notation.TokenizeShapes | js/music.js:110-145 | every token is well formed: one non-space character, then at most a `b`, then at most one octave mark (a mark can lead a token: ",," is one token) |
| Notation.TokenizeConcat | js/music.js:110-145 | concatenating the tokens gives back the input with its spaces removed; nothing is lost or reordered |
| Notation.TokenizePlain | js/music.js:110-145 | a string with no marks and no spaces tokenizes into its single characters |
| Notation.Lookup | js/music.js:9-59 | a frequency is never negative, and it is positive exactly for a note in the table other than the rest |
| Notation.TableKeys | js/music.js:9-59 | every key of the frequency table is a well-formed token, as the note parser produces them, led by a degree from `0` to `7` |
| Sequencer.LibraryShape | js/music.js:62-90 | the library holds the default song "twinkle"; its key list holds exactly the library's keys, without repeats |
| Sequencer.ParseAll | js/music.js:94-107 | parsing every song keeps the set of song keys |
| Sequencer.PlayIndex | js/music.js:151-158 | the note read is the cursor while the cursor is inside the song, and the first note once the cursor has run past the end |
| Sequencer.AdvanceCounts | js/music.js:148-181 | from the start of a song, k plays leave the cursor at k |
| Sequencer.ReadsInOrder | js/music.js:148-181 | the k-th play from the start reads note k: a song is played in order |
| Sequencer.CursorPeriodic | js/music.js:151-177 | after the first play the cursor repeats with the song's length as its period |
| Sequencer.ReadsPeriodic | js/music.js:148-181 | the note read by play k + length is the note read by play k: a song loops |
| Sequencer.WrapAround | js/music.js:151-155 | after a full song the cursor sits at the end, the next play reads the first note again, and then the cursor is 1 |
| Sequencer.AdvanceInRange | js/music.js:151-177 | for a non-empty song the cursor after a play lies between 1 and the song's length |
| Sequencer.ToneFor | js/music.js:160-162 | at most one tone is requested; one is requested exactly for a table note other than the rest, at that note's positive frequency |
| Sequencer.LabelsAreNotNotes | js/music.js:229-235 | the "start" and "finished" labels and the empty string are not notes, so showing them asks for no frequency |
| Sequencer.DisplayConsistent | js/music.js:247-260 | the frequency that is reported is the table frequency of the label that is shown |
| Sequencer.DisplayAfterPlay | js/music.js:223-260 | after a play the label shown is the note just played and its frequency, except after the last note, where it is the "finished" label at 0 Hz |
| Sequencer.SplitNoteArrayLosesMarks | js/music.js:267 | splitting "5," character by character gives the two notes "5" and "," |
| Sequencer.CommaIsSilent | js/music.js:160-162 | the stray token "," is not a note, so it sounds nothing |
| Sequencer.ParseKeepsLowSo | js/music.js:110-145 | the note parser reads "5," as the single low So, at 196 Hz |
| Sequencer.MusicSystem.constructor | js/music.js:3-91 | a new sequencer has the library in its key order, every song parsed, "twinkle" selected and the cursor at 0 |
| Sequencer.MusicSystem.InitializeSongs | js/music.js:94-107 | every song's note array is re-parsed from its note string, and the keys, the current song and the cursor are unchanged |
| Sequencer.MusicSystem.PlayNextNote | js/music.js:148-181 | the cursor advances, and the tone for the note at the played index is requested (none for a rest or an unknown token) |
| Sequencer.MusicSystem.SwitchSong | js/music.js:208-214 | a known key selects that song from the beginning; an unknown key changes nothing |
| Sequencer.MusicSystem.ResetSong | js/music.js:217-220 | the cursor goes back to the start of the song |
| Sequencer.MusicSystem.GetCurrentSongInfo | js/music.js:223-244 | progress is the cursor and total is the song length; the note shown is the first note before any play (the "start" label for an empty song), then the note just played, and the "finished" label once the cursor reaches the end |
| Sequencer.MusicSystem.GetCurrentNoteFrequency | js/music.js:247-260 | the frequency reported is that of the note shown, and 0 for a label |
| Sequencer.MusicSystem.AddSong | js/music.js:263-271 | corrected behaviour (see "## Findings"; the split as written is `Sequencer.SplitNoteArray`, shown by `Sequencer.SplitNoteArrayLosesMarks`): the song is stored under its key with its notes read by the note parser and the default emoji when none is given; the key is appended to the order only when it is new |
| Sequencer.MusicSystem.SwitchToNextSong | js/music.js:274-281 | the next song in insertion order is selected, wrapping from the last to the first; it starts from the beginning and is returned |
| Sequencer.MusicSystem.PreviewNote | js/music.js:293-298 | a preview asks for the note's tone at the preview duration and leaves the playing position as it is |
| Seqs.FilterExactlyKept | js/shapes.js:169 | `filter` keeps exactly the elements that pass the test: in their order, each as often as in the input, and nothing else |
| Seqs.LastNSlide | js/effects.js:216-221 | pushing onto a window of the last n items and dropping the oldest past n gives the last n of the whole history |
| Seqs.NextKeyStep | js/music.js:274-281 | one switch moves from the song at index j to the one at j + 1, and from the last to the first |
| Seqs.NextKeyWalks | js/music.js:274-281 | n switches from song i reach song i + n while that is in range |
| Seqs.NextKeyWraps | js/music.js:274-281 | past the last song the walk continues from the first |
| Seqs.NextKeyCycle | js/music.js:274-281 | as many switches as there are songs come back to the song you started from |
| Seqs.SuccIsMod | js/music.js:277 | the next index is `(i + 1) % n` |
| Audio.TonePlayer.constructor | js/audio.js:3-7 | a new sound output is not initialized and has played nothing |
| Audio.TonePlayer.Initialize | js/audio.js:10-21 | initializing switches the output on and plays nothing |
| Audio.TonePlayer.PlayTone | js/audio.js:24-57 | one tone with the given frequency and duration is added to the record of requests |
| NoteStyle.HexDigit | js/music.js:408-410 | a formatted hex digit is lower case and reads back as its value |
| NoteStyle.HexDigitOfValue | js/music.js:399-410 | reading a lower-case hex digit and formatting it again gives the same digit |
| NoteStyle.ParseColor | js/music.js:400-402 | every channel read from a `#rrggbb` colour is a byte |
| NoteStyle.FormatByte | js/music.js:408-410 | a channel is written as two lower-case hex digits, padded with a zero, that read back as the channel |
| NoteStyle.ParseFormatColor | js/music.js:399-411 | writing a colour and reading it back gives the same colour |
| NoteStyle.FormatParseColor | js/music.js:399-411 | reading a lower-case colour and writing it again gives the same string |
| NoteStyle.ScaleChannel | js/music.js:404-406 | a scaled channel is floored and clamped to a byte |
| NoteStyle.AdjustBrightness | js/music.js:399-411 | the result is a lower-case colour whose channels are the clamped, floored products of the input's channels and the factor |
| NoteStyle.DarkenNeverBrightens | js/music.js:399-411 | a factor of at most 1 makes no channel brighter |
| NoteStyle.BrightenNeverDarkens | js/music.js:399-411 | a factor of at least 1 makes no channel darker |
| NoteStyle.UnitFactor | js/music.js:399-411 | a factor of 1 returns the colour unchanged |
| NoteStyle.GetNoteColor | js/music.js:365-396 | every note, even an unknown one, gets a well-formed colour |
| NoteStyle.UnmarkedColor | js/music.js:365-377 | a note with no marks gets its degree's colour from the palette |
| NoteStyle.LowOctaveNoBrighter | js/music.js:380-388 | a low-octave note is never brighter than its degree's colour |
| NoteStyle.FlatNoBrighter | js/music.js:380-386 | a flat note that is not high is never brighter than its degree's colour |
| NoteStyle.HighOctaveNoDarker | js/music.js:389-392 | a high, natural note is never darker than its degree's colour |
| NoteStyle.ReadDegreeName | js/music.js:416-427 | each degree 1–7 has a two-letter name that identifies it |
| NoteStyle.ReadMarkSuffix | js/music.js:430-440 | the mark suffix of a label gives back the token's marks |
| NoteStyle.ReadGetNoteText | js/music.js:414-443 | the label of a well-formed note determines the note: reading the label back gives the token |
| NoteStyle.NoteTextInjective | js/music.js:414-443 | two distinct well-formed notes never get the same label |
| Visualizer.MoveDirectionContour | js/music.js:335-362 | a label rises exactly for a note that is the first one or higher than the last, and falls exactly for a lower one (2 down, 2 or 3 up) |
| Visualizer.MoveDirectionRanges | js/music.js:336-361 | a rest drifts sideways by at most 1.5 (its speed lies in [-1.5, 1.5)), a repeated pitch by at most 2 (in [-2, 2)), and a label moving vertically does not move sideways |
| Visualizer.NextLastKeepsPositive | js/music.js:329-331 | the remembered frequency changes only to a positive frequency, so it is always missing or positive |
| Visualizer.StepEffectsKeepsLiving | js/music.js:446-462 | after an update exactly the moved effects that are still alive remain, in order |
| Visualizer.SurvivesUpdate | js/music.js:446-462 | an effect survives an update exactly when its life is still above its decay |
| Visualizer.DriftNClosedForm | js/music.js:446-462 | k updates move an effect by k times its direction, fade it by k decays and grow it by k × 0.5 |
| Visualizer.EffectLifetime | js/music.js:309-462 | a new note label stays alive for exactly 50 updates |
| Visualizer.MusicVisualizer.constructor | js/music.js:303-306 | no effects, and no remembered frequency |
| Visualizer.MusicVisualizer.AddNoteEffect | js/music.js:309-332 | one effect is appended, with the note's colour and label and the direction from the contour; the remembered frequency is updated |
| Visualizer.MusicVisualizer.Update | js/music.js:446-462 | the effects become their one-step drift, filtered to the living ones; the remembered frequency stays |
| Visualizer.MusicVisualizer.GetActiveCount | js/music.js:490-492 | the count is the number of active effects |
| Geometry.GrowBound | js/effects.js:36-38 | growing towards a cap never shrinks, stops at most one step past the cap, and leaves the value unchanged exactly when it has reached the cap |
| Geometry.FadedStep | js/shapes.js:82 | each step fades life by exactly one decay |
| Shapes.Pick | js/shapes.js:33-43 | a roll picks a valid index into a list |
| Shapes.ShapeKind | js/shapes.js:27 | a shape is one of three kinds |
| Shapes.ShapeColor | js/shapes.js:33-43 | a shape's colour comes from the palette |
| Shapes.BounceAxisInside | js/shapes.js:55-75 | after one bounce step the centre lies within half a size of both walls |
| Shapes.ShapeStepInside | js/shapes.js:45-83 | on a canvas at least as large as the shape, an update keeps the shape inside the canvas on both axes |
| Shapes.AxisStep | js/shapes.js:55-79 | crossing a wall reverses the velocity with damping 0.7; otherwise the position moves by the velocity; friction never speeds the shape up |
| Shapes.ShapeStepHorizontal | js/shapes.js:48-78 | horizontal speed never grows; without a wall hit, x moves by vx and vx is damped by friction |
| Shapes.ShapeStepVertical | js/shapes.js:47-79 | vertical speed never grows beyond the speed after gravity; without a wall hit, y moves by vy plus gravity |
| Shapes.ShapeStepFades | js/shapes.js:45-83 | life drops by one decay, the rotation advances, and the shape dies exactly when its life was at most its decay |
| Shapes.ShapeStepNLife | js/shapes.js:82 | after k updates the life is the initial life less k decays |
| Shapes.ShapeLifetime | js/shapes.js:22-24 | a normal shape dies after exactly 125 updates, a burst particle after exactly 50 |
| Shapes.NewShapeRanges | js/shapes.js:149-161 | a new shape has size in [20, 50), speeds in range and life 1; a burst particle has decay 0.02, size in [5, 15) and speeds in [-10, 10) |
| Shapes.Shape.constructor | js/shapes.js:3-31 | the new shape's state is the one computed from its draws, with its kind and palette colour |
| Shapes.Shape.Update | js/shapes.js:45-83 | the shape's new state is one `ShapeStep` of its old state |
| Shapes.Shape.IsDead | js/shapes.js:137-139 | dead exactly when life is at most 0 |
| Effects.NewRays | js/effects.js:20-31 | one ray per draw |
| Effects.NewRayRanges | js/effects.js:20-31 | a new ray has life 1, decay in [0.015, 0.025) and size in [3, 11) |
| Effects.NewNovaRanges | js/effects.js:11-31 | with rolls in [0, 1), the supernova `Effects.NewNova` builds starts with core size 0 and life 1, its core's maximum size lies in [150, 250), it has one ray per draw, and every ray starts with life 1, decay in [0.015, 0.025) and size in [3, 11) |
| Effects.NovaStepKeepsSize | js/effects.js:36-38 | the core never shrinks and never grows more than one step past its maximum |
| Effects.NovaStepRays | js/effects.js:34-53 | the rays that remain are exactly the moved rays still alive, in order, and each has lost one decay; the supernova dies exactly when its life drops to 0 |
| Effects.NovaStepNLife | js/effects.js:52 | after k updates the life is the initial life less k decays |
| Effects.NovaLifetime | js/effects.js:13-14 | a supernova dies after exactly 84 updates |
| Effects.Supernova.constructor | js/effects.js:5-32 | core size 0, maximum size 150 plus 100 times the size roll, its colour, and 20 rays, one built from each draw |
| Effects.Supernova.Update | js/effects.js:34-53 | the new state is one `NovaStep` of the old one |
| Effects.Supernova.IsDead | js/effects.js:93-95 | dead exactly when life is at most 0 |
| Effects.InitialArms | js/effects.js:113-120 | a spiral has three arms |
| Effects.StepArms | js/effects.js:131-153 | every arm is stepped and none is added or lost |
| Effects.MoteDistanceBound | js/effects.js:134 | a new particle starts inside the current radius |
| Effects.ArmStepDistances | js/effects.js:131-153 | one arm update keeps every particle's distance below a bound that is at least the radius |
| Effects.SpiralStepKeepsOk | js/effects.js:123-156 | the spiral's invariant holds after an update: three arms, a positive radius below its cap plus one step, and every particle inside that radius |
| Effects.SpiralStepEmitsAtMostOne | js/effects.js:133-143 | each arm keeps its angle and gains at most one particle, and only when the emission roll is under 0.3 |
| Effects.ArmStepKeepsLiving | js/effects.js:146-152 | the particles that remain are exactly the aged ones still alive, in order |
| Effects.SpiralRunTurnsAndFades | js/effects.js:123-156 | after k updates the rotation has advanced by k × 0.1, the life has faded by k decays, and there are still three arms |
| Effects.SpiralLifetime | js/effects.js:110-111 | a spiral dies after exactly 125 updates |
| Effects.AgeMotes | js/effects.js:146-149 | the loop turns and fades every particle |
| Effects.SpiralStepFields | js/effects.js:123-156 | an update turns the spiral, grows its radius towards the cap, steps the arms and fades the life, and changes nothing else |
| Effects.StepArm | js/effects.js:131-153 | one arm is updated as `ArmStep` says: an optional emission, aging, then removing the dead |
| Effects.Spiral.constructor | js/effects.js:100-121 | the initial spiral: rotation 0, radius 20 of 120, life 1, three empty arms |
| Effects.Spiral.Update | js/effects.js:123-156 | the new state is one `SpiralStep` of the old one |
| Effects.Spiral.IsDead | js/effects.js:182-184 | dead exactly when life is at most 0 |
| Effects.Positions | js/effects.js:216-221 | a trail's positions are one per trail point |
| Effects.Relabel | js/effects.js:224-226 | relabelling keeps the number of trail points |
| Effects.RelabelLives | js/effects.js:224-226 | relabelling keeps the positions and gives the points lives in [0, 1) that increase from oldest to newest |
| Effects.GrowTrailWindow | js/effects.js:216-226 | the trail's positions after a step are the last 25 of the old positions plus the new head; it grows by one until it is full |
| Effects.Heads | js/effects.js:212-213 | the comet has one head position per update |
| Effects.CometStepTrail | js/effects.js:210-226 | an update keeps the trail's capacity and grows the trail with the new head |
| Effects.CometTrailSlides | js/effects.js:210-226 | one more update slides the window over the head history by one position |
| Effects.CometTrailIsWindow | js/effects.js:210-226 | after any number of updates the trail holds exactly the last (at most 25) head positions, in order |
| Effects.BounceTurnsBack | js/effects.js:229-230 | outside the canvas the velocity is reversed with damping 0.8, so a comet moving outwards turns back; inside it is unchanged; the speed never grows |
| Effects.CometStepNLife | js/effects.js:232 | after k updates the life is the initial life less k decays |
| Effects.CometLifetime | js/effects.js:204-205 | a comet dies after exactly 167 updates |
| Effects.RelabelTrail | js/effects.js:224-226 | the relabelling loop computes `Relabel` |
| Effects.Comet.constructor | js/effects.js:189-208 | the initial comet from its draws: an empty trail of capacity 25, and its colour |
| Effects.Comet.Update | js/effects.js:210-233 | the new state is one `CometStep` of the old one |
| Effects.Comet.IsDead | js/effects.js:270-272 | dead exactly when life is at most 0 |
| Effects.ExplosionColor | js/effects.js:304-314 | a spark's colour comes from the palette |
| Effects.PassCount | js/effects.js:287-288 | the loop `for (i = 0; i < limit; i++)` runs the smallest number of times that is at least the limit |
| Effects.SparkCountRange | js/effects.js:287-288 | an explosion has between 15 and 35 sparks |
| Effects.NewSparks | js/effects.js:288-300 | one spark per draw |
| Effects.SparkTerminalSpeed | js/effects.js:317-323 | drag and gravity pull a spark's vertical speed towards 4 and its horizontal speed towards 0, geometrically |
| Effects.ExplosionStepSparks | js/effects.js:316-328 | the sparks that remain are exactly the moved sparks still alive, in order; the explosion fades by one decay |
| Effects.ExplosionDeadStaysDead | js/effects.js:348-350 | a dead explosion stays dead |
| Effects.SparksStepBelow | js/effects.js:316-326 | every update lowers the bound on the sparks' lives by at least the least spark decay |
| Effects.ExplosionStepNBelow | js/effects.js:316-326 | after k updates every spark's life is below the bound less k times the least decay |
| Effects.ExplosionOverBy50 | js/effects.js:316-328 | an explosion whose sparks have life at most 1 and decay at least 0.02 has lost all its sparks, and is dead, after 50 updates |
| Effects.NewSparksBelow | js/effects.js:288-300 | new sparks start with life 1 and decay below 0.04 |
| Effects.Explosion.constructor | js/effects.js:277-302 | life 1, decay 0.015, and as many sparks as the count loop makes, taken from the draws |
| Effects.Explosion.Update | js/effects.js:316-328 | the new state is one `ExplosionStep` of the old one |
| Effects.Explosion.IsDead | js/effects.js:348-350 | dead exactly when its life is at most 0 or no spark remains |
| Effects.MoveSparks | js/effects.js:317-324 | the spark loop moves every spark |
| Manager.ValuesOf | js/shapes.js:164-170 | the snapshot of the entity list has one state per entity |
| Manager.StepAll | js/shapes.js:166 | the forEach steps every entity and keeps the number of entities |
| Manager.ManagerStepKeepsLiving | js/shapes.js:164-170 | after an update exactly the stepped entities still alive remain, in order, and the list never grows |
| Manager.SurvivesStep | js/shapes.js:164-170 | a stepped entity stays exactly when it is alive |
| Manager.ManagerStepNoDeaths | js/shapes.js:164-170 | when no entity dies, the update only steps them |
| Manager.EntityIsDead | js/shapes.js:169 | the dispatch `isDead()` agrees with the entity's state |
| Manager.StepOne | js/shapes.js:166 | the dispatch `update()` steps the entity's state |
| Manager.StepAt | js/shapes.js:166 | stepping one entity changes that entity only |
| Manager.KeptOfValues | js/shapes.js:169 | the entities kept have as snapshot the filtered snapshot |
| Manager.KeptOfDistinct | js/shapes.js:169 | the entities kept come from the list and are still distinct objects |
| Manager.KeepLiving | js/shapes.js:169 | the filter loop keeps the living entities in order |
| Manager.BurstValues | js/shapes.js:154-161 | one burst particle per draw |
| Manager.ShapeManager.constructor | js/shapes.js:144-147 | an empty list on the given canvas |
| Manager.ShapeManager.Update | js/shapes.js:164-170 | the entities' new states are the manager step of the old ones: step all, then keep the living |
| Manager.ShapeManager.StepEach | js/shapes.js:166 | every entity is stepped in place and the list itself is unchanged |
| Manager.ShapeManager.RemoveDead | js/shapes.js:169 | the new list's states are the old states filtered to the living |
| Manager.ShapeManager.AddShape | js/shapes.js:149-162 | four entities are appended: the shape and three burst particles at the same point |
| Manager.ShapeManager.AddBurst | js/shapes.js:155-160 | one burst particle is appended |
| Manager.ShapeManager.Push | js/shapes.js:149-195 | an entity is appended and the others are untouched |
| Manager.ShapeManager.AddSupernova | js/shapes.js:181-183 | one new supernova is appended |
| Manager.ShapeManager.AddSpiral | js/shapes.js:185-187 | one new spiral is appended |
| Manager.ShapeManager.AddComet | js/shapes.js:189-191 | one new comet is appended |
| Manager.ShapeManager.AddExplosion | js/shapes.js:193-195 | one new explosion is appended |
| Manager.ShapeManager.GetShapeCount | js/shapes.js:176-178 | the count is the length of the list |
| Game.BandIntervals | js/main.js:118-139 | the effect roll picks each effect exactly on its interval: supernova below 0.08, spiral to 0.12, comet to 0.18, explosion to 0.22, shapes to 0.3, music only above |
| Game.SparkCountFits | js/effects.js:287-288 | enough spark draws for the count loop are always available |
| Game.SpawnedFamily | js/main.js:118-139 | a tap adds exactly the entities of its band: one effect of the right kind, four shapes at the tap point (one normal, three bursts), or nothing |
| Game.SpawnedExplosionSize | js/main.js:132-134 | an explosion spawned by a tap has 15 to 35 sparks |
| Game.SpawnedParticleSizes | js/main.js:136-138 | the three burst particles of a shape tap have sizes in [5, 15) |
| Game.SpawnPointRanges | js/main.js:82-83 | a key press spawns inside the canvas width and in the upper 70 % of its height |
| Game.TapPlaysOneNote | js/main.js:99-115 | a tap advances the tune by one note and shows one label: the note just played, or the "finished" label (which drifts sideways and leaves the remembered frequency alone) after the last note; at most one tone sounds |
| Game.AsWrittenStuck | js/main.js:75-96 | as written, once audio is on without a sequencer, no further input ever creates one |
| Game.KeyFirstNeverPlays | js/main.js:75-96 | as written, a key press as the first interaction leaves the game with audio on and no music for good |
| Game.RunSettled | js/main.js:88-96 | once audio and music are on, further input keeps them on |
| Game.RunMusicIffInteraction | js/main.js:75-96 | with the corrected input handler music is on exactly after the first interaction, and exactly when audio is on |
| Game.UpdateNotes | js/main.js:146 | the note effects take one update step, the remembered pitch stays, and the entities are untouched |
| Game.NewSequencer | js/main.js:93 | a fresh sequencer on the game's sound output, at the default song's start |
| Game.PlayAndShow | js/main.js:99-115 | the tune advances one note, its tone is requested, and its label is appended with the contour from the remembered frequency; without a sequencer nothing changes |
| Game.BabyGame.constructor | js/main.js:3-19 | no interaction yet: audio off, no sequencer, no entities and no note effects |
| Game.BabyGame.CreateShapeAt | js/main.js:88-141 | the first tap switches audio on and builds a sequencer at the start of "twinkle"; every tap then plays one note, shows its label and adds exactly the entities of the effect band |
| Game.BabyGame.StartMusic | js/main.js:90-96 | the first interaction initializes audio and creates the sequencer; later ones change nothing |
| Game.BabyGame.PlayTapNote | js/main.js:99-115 | the sequencer plays one note and the visualizer shows it; the entities are untouched |
| Game.BabyGame.SpawnEffect | js/main.js:118-139 | the entity list grows by the band's entities, appended after the old ones |
| Game.BabyGame.HandleInput | js/main.js:75-86 | corrected behaviour (see "## Findings"; the code as written is `Game.BabyGame.HandleInputAsWritten`): a key press is a tap at the point the position rolls pick: it plays the sequencer's next note (a new sequencer at its first note on the first interaction), requests that tone, adds that note's effect at the point, remembers its pitch as addNoteEffect does, spawns the effect band's entities there, and leaves the frame counter alone |
| Game.BabyGame.HandleInputAsWritten | js/main.js:75-86 | as written, a first key press switches audio on but never creates the sequencer, so no note sounds or shows; otherwise it plays from the existing sequencer (or none) exactly as a tap does: the next note, its tone, its effect at the point and its remembered pitch, the band's entities, and the frame counter unchanged |
| Game.BabyGame.Update | js/main.js:143-147 | the frame counter increases; the entities and note effects take one step each; the music, the requested tones and the remembered pitch are untouched |

## Left out

- Drawing is left out: every `draw(ctx)`, the canvas context, gradients, device-pixel-ratio scaling and `resize`. These produce pixels, not state.
- The animation loop (`requestAnimationFrame`), the `isRunning` flag and the event-listener wiring in `js/main.js` are left out. They are browser I/O. `Game.BabyGame.Update` models one frame and `Game.BabyGame.HandleInput`/`Game.BabyGame.CreateShapeAt` model one event. The first frame that the constructor runs synchronously (init, then start, then gameLoop, which calls update once) is left out too. So `Game.BabyGame.constructor` states frameCount 0, where the source has already counted one frame.
- The music button, `showProgress` and every `console.log` are left out. They only touch the page.
- Sequencer.MusicSystem.AddSong: keeps the song keys in plain insertion order. JavaScript's `Object.keys` lists integer-like keys (such as "1") first, in ascending order, so after adding such a key `SwitchToNextSong` walks a different order than the source. The built-in keys are not integer-like, and nothing in the program adds songs.
- Sequencer.MusicSystem.SwitchSong: treats only the stored songs as known keys. In the source the test `this.songs[songKey]` also accepts inherited property names such as "toString"; the sequencer would then select a song that does not exist, and the next `playNextNote` throws. No caller passes such a key.
- `getAllSongs` is left out. It is a read-only listing that the core does not use.
- `songSelector.js` and `server.js` are not part of this model.
- The Web Audio graph in `playTone` is left out: oscillators, gain envelopes and timing. `Audio.TonePlayer.PlayTone` records each request.
- Audio.TonePlayer.PlayTone: records every request, including one made before initialization, where the browser plays nothing.
- Audio.TonePlayer.Initialize: does not model the failure path in which the audio context cannot be created.
- `Math.random`, `Math.cos` and `Math.sin` are parameters, as draw records.
- Floating point is modelled as exact reals, so rounding in the sums of lives and positions is not captured.
- NoteStyle.AdjustBrightness: computes `floor(c × factor)` exactly, while the browser floors the floating-point product. The two differ where the product lands just below an integer: `getNoteColor("4,")` floors 180 × 0.7 = 125.99999999999999 to 125 and gives `#69907d`, where the model gives `#69907e`. NoteStyle.GetNoteColor inherits this difference.
- The canvas is an immutable value (width, height): resizing during play is not modelled.
- The global `audioSystem` is the game's own sound output object.
- Game.NewSequencer: does not state the song table. It is a helper that gives `Game.BabyGame.CreateShapeAt` the fields it needs, and `Sequencer.MusicSystem.constructor` states the full table.
- Game.UpdateNotes: a framing helper for `Game.BabyGame.Update`; its content is `Visualizer.MusicVisualizer.Update`.

## Findings

| source | as written | input that shows it | evidently intended | confidence | as-written member | corrected member |
|---|---|---|---|---|---|---|
| js/main.js:75-96 | `handleInput` switches the audio on before `createShapeAt`, and `createShapeAt` builds the sequencer only when the audio is still off | the first interaction is a key press; from then on no tap or key ever sounds a note | the first interaction of any kind starts the music, as a click or touch does | not executed | Game.KeyFirstNeverPlays | Game.RunMusicIffInteraction |
| js/music.js:267 | `addSong` splits the note string into single characters | `addSong` with notes "5," stores the notes "5" and "," instead of the low So | added songs are read like the built-in ones, with `parseNotes` | not executed | Sequencer.SplitNoteArrayLosesMarks | Sequencer.MusicSystem.AddSong |
