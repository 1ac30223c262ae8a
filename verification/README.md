# Sound-R scene sequencer, modelled in Dafny

Sound-R plays the ambience of a tabletop session. An operator steps through a
scene script: an ordered list of `sound`, `art` and `cue` entries per scene.
The engine interprets that script. This project models the engine's core:

- **`validate_mapping`**. The repository carries three identical copies of it.
  It checks every entry for `type`, `id`, `payload` and a boolean `loop`, and
  records one error key per failed check. With `update_map` it also deletes
  flagged entries from a deep copy of the script. The deletion uses the
  entry's index in the *original* list on a copy that has already shrunk. With
  two or more flagged entries in one scene, the wrong entry can go, or the
  `del` can run off the end and raise `IndexError`. That is modelled as
  written (`Validation.Prune`/`Validate`). The filter the deletion evidently
  aims at is the reference `Validation.Keep`. The two are proved equal
  exactly when a scene has at most one flagged entry
  (`Validation.PruneIsKeepIff`). With two or more, the pass either raises or
  keeps the second flagged entry (`Validation.SecondFlaggedSurvives`).
- **The newer engine** (sound_r, Qt). `SoundPlayer` holds fade durations, a
  loop mode and the listeners connected to its `positionChanged`.
  `SoundEngine` walks `(scene_id, idx)`:
  - `play_obj` dispatches on `type`;
  - `play_sound` sets loops, attaches a loop listener and plays;
  - `check_stop` stops a non-retained sound;
  - `step` runs `check_stop`, then `idx += 1`, then dispatch;
  - `cue` jumps to another scene; `art` emits `select_image`.

  The behaviour is given as functions over an `EngineState` value
  (`SceneSequencer.*Run`). The `SoundPlayer` and `Engine` classes do the same
  work by updating their fields, and every method is proved to agree with its
  function. Lemmas then state what the sequencer promises:
  - the log only grows;
  - listeners only accumulate;
  - exactly one stop per non-retained sound left behind;
  - the auto-step defaults of the schema;
  - running off the end of a scene;
  - cue cycles.
- **The older engine** (dnd_sound_engine/sounds, pygame). It keeps the mixer
  channel of each played entry in `channels`, keyed by `(scene_id, idx)`.
  `check_stop` looks the key up without a guard. The model proves that every
  successful dispatch leaves the key it needs in place, so the next
  `check_stop` cannot fail. A failed `play_sound` does break that step.
- **The first engine** (dnd_sound_engine/sound_engine.py). It only stores the
  validated script.
- **The declared schemas** (both `types.py`). These are the TypedDicts as
  datatypes, with their embedding into the run-time dictionary. Each
  `Optional[...]` field is read as a key that may be absent. A script of that
  shape passes validation unchanged. An explicit `null` is outside that shape
  (see "Left out").

The audio backends and the Qt signals are replaced by an event log. The log
records what the backend is asked to do and what the engine emits, in order.
Python exceptions (`KeyError`, `IndexError`, the `AttributeError` of
`step()` before `start()`, `RecursionError`) become `Failed(fault)`
outcomes. Each one leaves behind the state the source would have at the
moment it raised.

The code as written has these consequences, and the model keeps them:

- `loopScenes` is read by `load()` and consulted nowhere else. Stepping past the
  last entry faults at the lookup, with the index already incremented. It
  neither wraps nor returns to idle.
- Loop listeners are never removed. A stopped looping sound still
  reports its loop boundaries, and replaying a looping entry double-fires.
- `SoundPlayer.stop()` stops the backend *before* it starts the fade-out
  ramp.
- A sound id that was never loaded raises `KeyError`. Nothing on the
  dispatch path guards against it.

## Model

| member | source | states |
|---|---|---|
| ScriptData.KindOf | sound_r/sounds/sound_engine.py:185-198 | the `match` on `type` reads `"sound"`, `"cue"` and `"art"` as their own kinds and anything else as `Unknown`, which never carries one of those three tags; the tag can be read back unchanged |
| ScriptData.KindOfTag | sound_r/sounds/sound_engine.py:185-198 | every kind that can arise is what the `match` makes of its own tag |
| ScriptData.EntryAt | sound_r/sounds/sound_engine.py:183-184 | the lookup `data_map["scenes"][scene][idx]` succeeds exactly when the scene exists and `idx` is in range, and then yields that entry; a too-large index is an `IndexError` for that scene and index |
| ScriptData.CueId | sound_r/sounds/sound_engine.py:172-173 | `get_cue_id` succeeds exactly when the entry exists and has an `id`, and returns it |
| ScriptData.Payload | sound_r/sounds/sound_engine.py:175-176 | `get_payload` succeeds exactly when the entry exists and has a `payload`, and returns it |
| Validation.Flagged | sound_r/sounds/sound_engine.py:31-51 | `remove_key` is set for an entry exactly when it lacks `type`, `id` or `payload`, or has a `loop` that is not a bool |
| Validation.Reported | sound_r/sounds/sound_engine.py:22-51 | the error keys a run records: `scenes_missing` when there are no scenes, and `scenes_<scene>_<i>_<check>` for each failed check of entry `i` |
| Validation.CheckEntry | sound_r/sounds/sound_engine.py:31-51 | the error keys recorded for one entry are exactly the failed checks for that scene and index, and `remove_key` holds exactly when some check fails |
| Validation.Delete | sound_r/sounds/sound_engine.py:53-55 | `del xs[i]` is one shorter, keeps the entries before `i` and shifts those after it down by one |
| Validation.PruneFrom | sound_r/sounds/sound_engine.py:29-55 | the deletion pass, when it completes, shortens the copy by the number of flagged entries still ahead and keeps a sub-multiset of it |
| Validation.Prune | sound_r/sounds/sound_engine.py:30-55 | the deletion pass over one scene, starting from the unmodified copy, removes entries and never adds one (when it does not raise `IndexError`) |
| Validation.Validate | sound_r/sounds/sound_engine.py:20-60 | only `scenes` can change; the scene names are kept and no scene grows; without `update_map` (or without `scenes`) the argument itself is returned; the only failure is the `IndexError` of `del` |
| Validation.ScanScene | sound_r/sounds/sound_engine.py:30-55 | the inner loop over one scene yields the error keys of exactly its failed checks and, with `update_map`, the as-written pruned list, failing exactly when that pruning does |
| Validation.ValidateMapping | sound_r/sounds/sound_engine.py:20-60 | the loops return exactly the map `Validate` describes, and the recorded error keys are exactly the failed checks (or `scenes_missing`) |
| Validation.GatheredIsPruned | sound_r/sounds/sound_engine.py:29-55 | once every scene's pass completes, the gathered lists are the pruned copy |
| Validation.Keep | sound_r/sounds/sound_engine.py:52-55 | the reference filter removes exactly the flagged entries: it is shorter by their count and keeps only unflagged entries of the scene |
| Validation.KeepIdempotent | sound_r/sounds/sound_engine.py:52-55 | filtering twice is filtering once |
| Validation.KeepNoneFlagged | sound_r/sounds/sound_engine.py:52-55 | a scene without flagged entries survives the filter whole |
| Validation.KeepOneFlagged | sound_r/sounds/sound_engine.py:52-55 | with exactly one flagged entry, the filter deletes exactly that entry |
| Validation.DeleteCons | sound_r/sounds/sound_engine.py:55 | deleting behind the head of a list keeps the head in front |
| Validation.PruneFromNoneFlagged | sound_r/sounds/sound_engine.py:30-55 | with no flagged entry ahead, the pass leaves the copy unchanged |
| Validation.PruneFromOneFlagged | sound_r/sounds/sound_engine.py:30-55 | with exactly one flagged entry ahead, the pass deletes exactly that position of the copy |
| Validation.PruneNoneFlagged | sound_r/sounds/sound_engine.py:30-55 | a scene without flagged entries is left as it is, which is also what the filter gives |
| Validation.PruneAtMostOneFlagged | sound_r/sounds/sound_engine.py:30-55 | with at most one flagged entry, the as-written deletion equals the filter |
| Validation.PruneFromSkip | sound_r/sounds/sound_engine.py:30-52 | an entry that passes every check causes no deletion: the pass goes straight on to the next flagged index |
| Validation.PruneFromAtFlagged | sound_r/sounds/sound_engine.py:52-55 | at a flagged index a pass that completes deletes that position of the shrunk copy and goes on |
| Validation.PruneFromKeepsBefore | sound_r/sounds/sound_engine.py:29-55 | the pass from index `i` on never touches a position of the copy before `i` |
| Validation.FirstFlagged | sound_r/sounds/sound_engine.py:30-51 | a scene with a flagged entry at or after `from` has a first one, and the count after it is one less |
| Validation.PruneToSecondFlagged | sound_r/sounds/sound_engine.py:29-55 | up to the second flagged index `b`, the pass has deleted original `a` and then position `b` of the shrunk copy, which is original `b + 1` |
| Validation.SecondFlaggedSurvives | sound_r/sounds/sound_engine.py:29-55 | when the pass completes, the second flagged entry is still in the result, at position `b - 1` |
| Validation.PruneDiffersFromKeep | sound_r/sounds/sound_engine.py:29-55 | with two or more flagged entries the pass never yields the filter's result |
| Validation.PruneIsKeepIff | sound_r/sounds/sound_engine.py:29-55 | the pass yields the filter's result if and only if the scene has at most one flagged entry |
| Validation.TwoFlaggedCount | sound_r/sounds/sound_engine.py:30-51 | two distinct flagged positions make the flagged count at least two |
| Validation.OneFlaggedCount | sound_r/sounds/sound_engine.py:30-51 | a flagged position makes the flagged count at least one |
| Validation.PruneLength | sound_r/sounds/sound_engine.py:30-55 | a completed pass shortens the scene by exactly the number of flagged entries |
| Validation.ValidateWellFormed | sound_r/sounds/sound_engine.py:20-60 | a script without flagged entries is returned unchanged and no error key is recorded |
| Validation.ValidateAtMostOneFlagged | sound_r/sounds/sound_engine.py:20-60 | with at most one flagged entry per scene, validation is exactly the per-scene filter |
| Validation.WrongEntryRemoved | sound_r/sounds/sound_engine.py:53-55 | `[bad, bad, good]` ends as `[bad]`: the good entry is deleted and a flagged one stays, where the filter gives `[good]` |
| Validation.DeletionRunsOffTheEnd | sound_r/sounds/sound_engine.py:53-55 | `[good, bad, bad]` makes the second `del` run past the end of the copy: validation raises `IndexError` |
| Validation.FailedPruneFailsValidation | sound_r/sounds/sound_engine.py:20-60 | an `IndexError` in the deletion pass of any one scene escapes `validate_mapping` as a whole |
| Validation.NotIdempotent | sound_r/sounds/sound_engine.py:20-60 | validating the result of validating `[bad, bad, good]` removes one more entry |
| Validation.BarePrunedAway | sound_r/sounds/sound_engine.py:53-55 | a lone entry without `type`, `id` and `payload` is deleted |
| Validation.ValidateOneScene | sound_r/sounds/sound_engine.py:20-60 | on a one-scene script, validation is the deletion pass on that scene |
| Validation.SeveralErrorsOneDeletion | sound_r/sounds/sound_engine.py:32-55 | an entry missing `type`, `id` and `payload` gets three error keys, not the `loop` one, and is deleted once |
| Validation.UnknownTagNotFlagged | sound_r/sounds/sound_engine.py:32-36 | only the presence of `type` is checked: an unknown tag with `id` and `payload` and a boolean or absent `loop` passes every check |
| Validation.NullLoopFlagged | sound_r/sounds/sound_engine.py:46-51 | an explicit `loop: null` fails the bool check, so the entry is reported and removed |
| Validation.FlaggedIffSomeCheckFails | sound_r/sounds/sound_engine.py:31-51 | `remove_key` is set exactly when one of the four checks fails |
| SceneTypes.AutoSteps | sound_r/sounds/sound_engine.py:186-196 | a declared sound steps on only when `step` is true; an art entry steps on unless `step` is false; a cue never does |
| SceneTypes.ToEntry | sound_r/sounds/types.py:13-19 | a declared `SceneObject` becomes the dictionary with its `type`, `id` and `payload`, its `loop` as a JSON bool when present, its `step` and `scale` as given, and no `retain` or `fadeout` |
| SceneTypes.FromEntry | sound_r/sounds/types.py:13-19 | a dictionary that reads as a declared object passes every validation check |
| SceneTypes.ToDataMap | sound_r/sounds/types.py:22-36 | the run-time script of a declared `ObjectMap` has the same scenes, each entry the dictionary of the declared object at that position, and the same `soundIDs`, `artIDs` and `root`; `globalOptions` is present exactly when declared, with the declared `loopScenes` |
| SceneTypes.EntryRoundTrip | sound_r/sounds/types.py:13-19 | reading back the dictionary of a declared object gives the object |
| SceneTypes.EntryConforms | sound_r/sounds/types.py:13-19 | a dictionary that reads as a declared object is exactly that object's dictionary |
| SceneTypes.DeclaredNeverFlagged | sound_r/sounds/types.py:9-19 | no check of `validate_mapping` fails on a declared object |
| SceneTypes.DeclaredMapValidates | sound_r/sounds/types.py:31-36 | a declared map passes validation unchanged, with no error key |
| LegacyTypes.ToEntry | dnd_sound_engine/sounds/types.py:13-17 | a declared object becomes a `sound` or `cue` dictionary with its `id`, its `payload`, its `loop` as a JSON bool when present, and none of the newer keys |
| LegacyTypes.FromEntry | dnd_sound_engine/sounds/types.py:13-17 | a dictionary that reads as a declared object passes every validation check |
| LegacyTypes.ToDataMap | dnd_sound_engine/sounds/types.py:20-26 | the run-time script keeps the scenes, each entry the dictionary of the declared object at that position, the `shortHands` table and `root` |
| LegacyTypes.EntryRoundTrip | dnd_sound_engine/sounds/types.py:13-17 | reading back the dictionary of a declared object gives the object |
| LegacyTypes.EntryConforms | dnd_sound_engine/sounds/types.py:13-17 | a dictionary that reads as a declared object is exactly that object's dictionary |
| LegacyTypes.ArtIsNotDeclared | dnd_sound_engine/sounds/types.py:9 | an `art` entry is not a declared older-engine object, though validation keeps it |
| LegacyTypes.DeclaredMapValidates | dnd_sound_engine/sounds/types.py:23-26 | a declared map passes validation unchanged, with no error key |
| SceneSequencer.PlayEvents | sound_r/sounds/sound_engine.py:105-110 | `play()` starts the backend first, and adds a fade-in of the configured duration exactly when one is configured |
| SceneSequencer.StopEvents | sound_r/sounds/sound_engine.py:112-117 | `stop()` stops the backend first, and adds a fade-out of the configured duration exactly when one is configured |
| SceneSequencer.LoopEvents | sound_r/sounds/sound_engine.py:223-225 | at position 0 every connected listener reports its `(scene_id, sound_id)` once, in connection order; at any other position nothing is reported |
| SceneSequencer.AttachRun | sound_r/sounds/sound_engine.py:219-227 | `attach_on_loop` succeeds exactly when the entry has a `payload` and an `id` and that payload's player exists; it then appends the listener `(scene, id)` to that player and changes nothing else; a failure changes nothing |
| SceneSequencer.LoopRun | sound_r/sounds/sound_engine.py:232-236 | the player's loop mode becomes Infinite exactly when the entry loops; nothing is logged |
| SceneSequencer.PlaySoundRun | sound_r/sounds/sound_engine.py:229-237 | `play_sound` never moves the cursor and never adds or drops a player |
| SceneSequencer.Stoppable | sound_r/sounds/sound_engine.py:207 | `check_stop` acts only on a sound whose `retain` is not true |
| SceneSequencer.CheckStopRun | sound_r/sounds/sound_engine.py:205-211 | `check_stop` never moves the cursor, keeps the set of players, and succeeds only once the engine has started |
| SceneSequencer.StopRun | sound_r/sounds/sound_engine.py:211 | stopping succeeds exactly when the payload names a loaded player, and then appends that player's stop events and changes nothing else |
| SceneSequencer.PlayObjRun | sound_r/sounds/sound_engine.py:182-198 | dispatch never adds or drops a player |
| SceneSequencer.PlaySceneRun | sound_r/sounds/sound_engine.py:200-203 | `play_scene` never adds or drops a player |
| SceneSequencer.StepRun | sound_r/sounds/sound_engine.py:213-217 | `step` never adds or drops a player |
| SceneSequencer.SoundPlayer.constructor | sound_r/sounds/sound_engine.py:65-83 | a new player holds its sound and the given fades, plays once and has no listeners |
| SceneSequencer.SoundPlayer.Play | sound_r/sounds/sound_engine.py:105-110 | `play()` emits the play events of the player's current configuration |
| SceneSequencer.SoundPlayer.Stop | sound_r/sounds/sound_engine.py:112-117 | `stop()` emits the stop events of the player's current configuration |
| SceneSequencer.SoundPlayer.SetLoops | sound_r/sounds/sound_engine.py:233 | `setLoops` changes the loop mode and nothing else |
| SceneSequencer.SoundPlayer.Connect | sound_r/sounds/sound_engine.py:227 | `positionChanged.connect` appends the listener after the existing ones and changes nothing else |
| SceneSequencer.SoundPlayer.PositionChanged | sound_r/sounds/sound_engine.py:223-227 | a position change runs the connected listeners, in order, yielding their reports |
| SceneSequencer.Engine.constructor | sound_r/sounds/sound_engine.py:147-151 | a new engine has no players, `loop_scenes` false, no position and an empty log |
| SceneSequencer.Engine.Create | sound_r/sounds/sound_engine.py:133-153 | the engine holds `validate_mapping(data_map)` or, without `validate`, the dry run's unchanged map; it has not started and has an empty log; with `load` it has a fresh player per `soundIDs` key, loaded for that file, with no fades, playing once and with no listeners, and `loop_scenes` is `globalOptions.loopScenes` (false when absent or without `load`); without `load` it has no players; it fails exactly on the `IndexError` of validation or on a missing `soundIDs` |
| SceneSequencer.Engine.Load | sound_r/sounds/sound_engine.py:155-167 | one fresh player per `soundIDs` entry, loaded for that id and file, with no fades, playing once and no listeners; other players are kept; `loop_scenes` comes from `globalOptions` when present; a missing `soundIDs` fails and changes nothing |
| SceneSequencer.Engine.SceneAndSound | sound_r/sounds/sound_engine.py:178-180 | succeeds exactly when the engine has started and the current entry has an `id`, and returns the scene with that `id` |
| SceneSequencer.Engine.AttachOnLoop | sound_r/sounds/sound_engine.py:219-227 | the new state and the outcome are exactly those of `AttachRun` |
| SceneSequencer.Engine.EmitEvents | sound_r/sounds/sound_engine.py:194 | emitting appends to the log and changes nothing else |
| SceneSequencer.Engine.SetFadeout | sound_r/sounds/sound_engine.py:208-209 | `fadeoutT` of that one player is overwritten and nothing else changes |
| SceneSequencer.Engine.PlaySound | sound_r/sounds/sound_engine.py:229-237 | the new state and the outcome are exactly those of `PlaySoundRun` |
| SceneSequencer.Engine.ConfigureLoops | sound_r/sounds/sound_engine.py:232-236 | the new state and the outcome are exactly those of `LoopRun` |
| SceneSequencer.Engine.CheckStop | sound_r/sounds/sound_engine.py:205-211 | the new state and the outcome are exactly those of `CheckStopRun` |
| SceneSequencer.Engine.StopSound | sound_r/sounds/sound_engine.py:211 | the new state and the outcome are exactly those of `StopRun` |
| SceneSequencer.Engine.PlayObj | sound_r/sounds/sound_engine.py:182-198 | the new state and the outcome are exactly those of `PlayObjRun` |
| SceneSequencer.Engine.PlayScene | sound_r/sounds/sound_engine.py:200-203 | the new state and the outcome are exactly those of `PlaySceneRun` |
| SceneSequencer.Engine.Step | sound_r/sounds/sound_engine.py:213-217 | the new state and the outcome are exactly those of `StepRun` |
| SceneSequencer.Engine.Start | sound_r/sounds/sound_engine.py:241-244 | `start()` is `play_scene(starting_id)` |
| SceneSequencer.Engine.PositionChanged | sound_r/sounds/sound_engine.py:223-227 | a loop boundary of a loaded player appends its listeners' reports to the log; an unknown sound fails and logs nothing |
| SequencerFacts.ExtendsTrans | sound_r/sounds/sound_engine.py:213-217 | "only grows" composes across calls |
| SequencerFacts.AttachExtends | sound_r/sounds/sound_engine.py:219-227 | `attach_on_loop` only grows the state |
| SequencerFacts.PlaySoundExtends | sound_r/sounds/sound_engine.py:229-237 | `play_sound` only grows the state |
| SequencerFacts.CheckStopExtends | sound_r/sounds/sound_engine.py:205-211 | `check_stop` only grows the state |
| SequencerFacts.PlayObjExtends | sound_r/sounds/sound_engine.py:182-198 | whatever dispatch does, the log only grows and listeners only accumulate; no player appears or vanishes |
| SequencerFacts.StepExtends | sound_r/sounds/sound_engine.py:213-217 | the same for `step` |
| SequencerFacts.PlaySceneExtends | sound_r/sounds/sound_engine.py:200-203 | the same for `play_scene` |
| SequencerFacts.PlaySceneMovesFirst | sound_r/sounds/sound_engine.py:200-203 | `play_scene` moves to `(scene, 0)` before the lookup, so a missing or empty scene leaves the engine there with the lookup's fault |
| SequencerFacts.CueDiscardsCaller | sound_r/sounds/sound_engine.py:190-191 | a cue is `play_scene(payload)` whatever position it was reached from |
| SequencerFacts.StepPastEnd | sound_r/sounds/sound_engine.py:213-217 | stepping from the last entry moves past the end and faults there; no wrap, no idle |
| SequencerFacts.CheckStopEffect | sound_r/sounds/sound_engine.py:205-211 | the state changes exactly when the entry is a non-retained sound; then `clear_loop` is emitted and that sound's player is stopped once, with the entry's `fadeout` copied into the player when present |
| SequencerFacts.PlaySoundEffect | sound_r/sounds/sound_engine.py:229-237 | the loop mode is Infinite exactly when `loop` is truthy, and only then is one listener for `(scene, id)` appended; the player then plays; no other player changes |
| SequencerFacts.RepeatedLoopingPlayDoubleFires | sound_r/sounds/sound_engine.py:227-234 | playing the same looping entry twice leaves two listeners, so each loop boundary reports it twice |
| SequencerFacts.PlayObjFuelMonotone | sound_r/sounds/sound_engine.py:182-198 | a dispatch that does not exhaust its fuel ends in the same state with the same outcome under any larger fuel |
| SequencerFacts.PlaySceneFuelMonotone | sound_r/sounds/sound_engine.py:200-203 | the same for `play_scene` |
| SequencerFacts.StepFuelMonotone | sound_r/sounds/sound_engine.py:213-217 | the same for `step` |
| SequencerFacts.UnknownIsNoOp | sound_r/sounds/sound_engine.py:197-198 | an entry of an unknown `type` changes nothing |
| SequencerFacts.SoundAutoStep | sound_r/sounds/sound_engine.py:186-189 | a declared sound steps after playing exactly when its `step` is true |
| SequencerFacts.ArtAutoStep | sound_r/sounds/sound_engine.py:192-196 | a declared art entry shows its image at its scale (1.0 by default) and steps unless its `step` is false |
| SequencerFacts.CueJumpExample | sound_r/sounds/sound_engine.py:182-217 | `A = [sound s1, cue -> B]`, `B = [sound s2]`: start plays `s1`; step stops `s1`, jumps and plays `s2` at `(B, 0)` |
| SequencerFacts.EndOfSceneExample | sound_r/sounds/sound_engine.py:192-217 | `C = [art]`: start shows the image, steps by default and faults at `(C, 1)` |
| SequencerFacts.StaleListenerStillFires | sound_r/sounds/sound_engine.py:205-234 | after a looping sound is stopped by `step`, its listener still reports its loop boundary |
| SequencerFacts.CueCycleExhaustsFuel | sound_r/sounds/sound_engine.py:190-191 | `A = [cue -> A]` recurses until the stack runs out |
| LegacySequencer.PlaySoundRun | dnd_sound_engine/sounds/sound_engine.py:119-123 | `play_sound` succeeds exactly when the entry has a loaded payload; it then adds or replaces the channel under `(scene_id, idx)` and keeps every other key; it never moves the cursor; a failure changes nothing |
| LegacySequencer.Stoppable | dnd_sound_engine/sounds/sound_engine.py:105 | `check_stop` acts only on a sound whose `retain` is not true |
| LegacySequencer.CheckStopRun | dnd_sound_engine/sounds/sound_engine.py:103-111 | `check_stop` never moves the cursor, succeeds only once started, logs at most one event and never a play, and changes nothing when it fails |
| LegacySequencer.PlayObjRun | dnd_sound_engine/sounds/sound_engine.py:87-96 | dispatch logs at most one event, always a play, and never drops a channel; a failed dispatch logs nothing and leaves the channels as they were. See also `LegacyFacts.PlayObjSettles`, `PlayObjFuelMonotone`, `OtherKindsAreNoOps` and `SoundNeverAdvances` |
| LegacySequencer.PlaySceneRun | dnd_sound_engine/sounds/sound_engine.py:98-101 | the same bounds as dispatch, and afterwards the engine always has a position. See also `LegacyFacts.PlaySceneSettles` and `PlaySceneFuelMonotone` |
| LegacySequencer.StepRun | dnd_sound_engine/sounds/sound_engine.py:113-117 | `step` appends at most one stop or fade-out followed by at most one play, and succeeds only once started. See also `LegacyFacts.StepSettles`, `CheckStopEffect`, `PlaySoundStoresUnderItsKey` and `StepPastEnd` |
| LegacySequencer.Engine.constructor | dnd_sound_engine/sounds/sound_engine.py:70-72 | a new engine has no sounds, no channels, no position and an empty log |
| LegacySequencer.Engine.Create | dnd_sound_engine/sounds/sound_engine.py:66-74 | the engine holds `validate_mapping(data_map)` or, without `validate`, the map as given; with `load` its sounds are the `shortHands` table; it fails exactly on the `IndexError` of validation or on a missing `shortHands` |
| LegacySequencer.Engine.Load | dnd_sound_engine/sounds/sound_engine.py:76-82 | one sound per `shortHands` entry, keeping the others; a missing table fails and changes nothing |
| LegacySequencer.Engine.PlaySound | dnd_sound_engine/sounds/sound_engine.py:119-123 | the new state and the outcome are exactly those of `PlaySoundRun` over the loaded sounds |
| LegacySequencer.Engine.CheckStop | dnd_sound_engine/sounds/sound_engine.py:103-111 | the new state and the outcome are exactly those of `CheckStopRun` |
| LegacySequencer.Engine.PlayObj | dnd_sound_engine/sounds/sound_engine.py:87-96 | the new state and the outcome are exactly those of `PlayObjRun` |
| LegacySequencer.Engine.PlayScene | dnd_sound_engine/sounds/sound_engine.py:98-101 | the new state and the outcome are exactly those of `PlaySceneRun` |
| LegacySequencer.Engine.Step | dnd_sound_engine/sounds/sound_engine.py:113-117 | the new state and the outcome are exactly those of `StepRun` |
| LegacySequencer.Engine.Start | dnd_sound_engine/sounds/sound_engine.py:125-126 | `start()` is `play_scene(starting_id)` |
| LegacyFacts.PlayObjSettles | dnd_sound_engine/sounds/sound_engine.py:87-96 | a successful dispatch leaves the engine at a dispatchable entry, with that entry's channel recorded when it is a sound |
| LegacyFacts.PlaySceneSettles | dnd_sound_engine/sounds/sound_engine.py:98-101 | the same for `play_scene` |
| LegacyFacts.StepSettles | dnd_sound_engine/sounds/sound_engine.py:113-117 | the same for `step` |
| LegacyFacts.PlayObjFuelMonotone | dnd_sound_engine/sounds/sound_engine.py:87-96 | a dispatch that does not exhaust its fuel ends in the same state with the same outcome under any larger fuel |
| LegacyFacts.PlaySceneFuelMonotone | dnd_sound_engine/sounds/sound_engine.py:98-101 | the same for `play_scene` |
| LegacyFacts.SettledCheckStopSucceeds | dnd_sound_engine/sounds/sound_engine.py:103-111 | in such a state `check_stop` cannot fail |
| LegacyFacts.NextCheckStopSucceeds | dnd_sound_engine/sounds/sound_engine.py:98-117 | after a successful `start()`, the next `step()` gets past its `check_stop` |
| LegacyFacts.StepThenCheckStopSucceeds | dnd_sound_engine/sounds/sound_engine.py:103-117 | after a successful `step()`, the next `step()` gets past its `check_stop` |
| LegacyFacts.PlaySoundStoresUnderItsKey | dnd_sound_engine/sounds/sound_engine.py:119-123 | the new channel is stored under exactly `(scene_id, idx)`, replacing any previous one, and its playback is logged |
| LegacyFacts.CheckStopEffect | dnd_sound_engine/sounds/sound_engine.py:103-111 | the state changes exactly when the entry is a non-retained sound; then its channel is faded out (with `fadeout`) or stopped, and exactly its key is deleted |
| LegacyFacts.RetainedChannelKept | dnd_sound_engine/sounds/sound_engine.py:105 | a retained sound's channel survives every `check_stop` |
| LegacyFacts.OtherKindsAreNoOps | dnd_sound_engine/sounds/sound_engine.py:95-96 | any `type` other than `sound` and `cue`, `art` included, changes nothing |
| LegacyFacts.SoundNeverAdvances | dnd_sound_engine/sounds/sound_engine.py:91-92 | dispatching a sound never moves the cursor: there is no auto-step |
| LegacyFacts.StepPastEnd | dnd_sound_engine/sounds/sound_engine.py:113-117 | stepping from the last entry moves past the end and faults there |
| LegacyFacts.RetainedExample | dnd_sound_engine/sounds/sound_engine.py:103-121 | `R = [retained r, s]`: after start and step both channels are in the dictionary |
| LegacyFacts.FailedPlayBreaksNextStep | dnd_sound_engine/sounds/sound_engine.py:98-121 | a sound that was never loaded fails `start()` with the position already set, and the next `step()` then fails looking up the missing channel |
| EarlyEngine.Engine.constructor | dnd_sound_engine/sound_engine.py:64-65 | the engine holds the script it is given |
| EarlyEngine.Engine.Create | dnd_sound_engine/sound_engine.py:64-65 | the engine holds `validate_mapping(data_map)` with the default `update_map=True`, or the construction fails with its `IndexError` |

## Left out

- The audio and display backends are not modelled. That covers Qt's
  `QMediaPlayer`/`QAudioOutput`, pygame's mixer, volumes, the
  `QPropertyAnimation` fade ramps and their timing, `time.sleep` during the
  older engine's fade-out, and `mixer.init`. Each is an event in the log.
- Logging, `print`, `tqdm` and the error-message texts of `validate_mapping`
  are left out. Error keys are structured values rather than formatted
  strings.
- Paths are not modelled: the `root / "sounds"` and `root / "art"` joins,
  `art_path`, and the file URLs. The `root` key is always present here. In
  the older engine a script without `root` raises `KeyError` at the start of
  `load()` (dnd_sound_engine/sounds/sound_engine.py:79). The newer engine
  reads `root` only once per `soundIDs` entry (sound_r/sounds/sound_engine.py:158-160),
  so it loads a script without `root` if `soundIDs` is empty.
- Qt parent objects and the `audioDevice` argument are not modelled.
- The model covers the values of `loop` that are bool, int, str or null.
  Other JSON values are not modelled. `isinstance(x, bool)` and truthiness
  are defined for those four.
- `step` and `retain` are modelled as booleans, so a non-boolean value's
  truthiness is not covered. `fadeout` is an integer and `scale` a real.
- `deepcopy` and object identity of the script are invisible under value
  semantics. The dry run (`update_map=False`) returns the argument itself,
  and that is what is modelled.
- The model keeps no order among scenes. The result of validation does not
  depend on it, and error keys are collected as a set.
- Fuel stands for Python's finite stack. Fuel exhaustion is
  `RecursionLimit`. The actual recursion depth at which Python raises
  `RecursionError` is not modelled.
- LegacySequencer.Engine.Load and LegacySequencer.Engine.Create: `mixer.Sound(...)`
  raises on a missing or unreadable sound file
  (dnd_sound_engine/sounds/sound_engine.py:82). Files are not modelled, so
  these members fail only on a missing `shortHands` table (and `Create` also
  on the `IndexError` of validation).
- LegacySequencer.Engine.PlaySound: pygame's `Sound.play()` returns `None`
  when no channel is free. The model always hands out a channel, so the
  later `AttributeError` on `None.stop()` is not modelled.
- `SoundEngine.__str__` (`pformat`) is left out because it is presentation
  only.
- The `artIDs` table is carried but not read by the engine core. The GUI
  reads it to find an image (sound_r/gui/app.py:129), and the GUI is not
  part of this model.
- SceneTypes.DeclaredMapValidates: reads `Optional[...]` as a key that may be
  absent, which is what the TODO at sound_r/sounds/types.py:12 intends. An
  explicit `null` is not in the declared shape. An explicit `loop: null` is
  flagged and deleted (sound_r/sounds/sound_engine.py:47, see `Validation.NullLoopFlagged`).
  A `globalOptions: null` makes `load()` raise `AttributeError`
  (sound_r/sounds/sound_engine.py:164).
- LegacyTypes.DeclaredMapValidates: the same reading of `Optional[...]`. An
  explicit `loop: null` is flagged and deleted.
- SequencerFacts.ArtAutoStep: `step` is a bool or absent here. An art entry
  with an explicit `step: null` does not step (sound_r/sounds/sound_engine.py:195), because
  `get` returns the `None`, which is not truthy.
