/**
 * What the older sequencer's operations promise, stated over the functions
 * of `LegacySequencer`.
 */
module LegacyFacts {
  import opened Wrappers
  import opened ScriptData
  import opened LegacySequencer

  /**
   * The engine is at an entry it could dispatch, and if that entry is a sound
   * its channel is recorded under the current `(scene_id, idx)`: exactly what
   * `check_stop` takes for granted.
   */
  predicate Settled(dm: DataMap, st: EngineState) {
    && st.cursor.Some?
    && EntryAt(dm, st.cursor.value.scene, st.cursor.value.idx).Ok?
    && EntryAt(dm, st.cursor.value.scene, st.cursor.value.idx).value.kind.Some?
    && (EntryAt(dm, st.cursor.value.scene, st.cursor.value.idx).value.kind == Some(Sound) ==>
          (st.cursor.value.scene, st.cursor.value.idx) in st.channels)
  }

  /** A successful dispatch of the current entry leaves the engine settled. */
  lemma {:induction false} PlayObjSettles(dm: DataMap, loaded: set<string>, st: EngineState, scene: string, idx: nat, fuel: nat)
    requires st.cursor == Some(Cursor(scene, idx))
    requires PlayObjRun(dm, loaded, st, scene, idx, fuel).outcome.Done?
    ensures Settled(dm, PlayObjRun(dm, loaded, st, scene, idx, fuel).state)
    decreases fuel, 0
  {
    var obj := EntryAt(dm, scene, idx).value;
    match obj.kind.value
    case Sound =>
    case Cue =>
      PlaySceneSettles(dm, loaded, st, obj.payload.value, fuel - 1);
    case Art =>
    case Unknown(_) =>
  }

  lemma {:induction false} PlaySceneSettles(dm: DataMap, loaded: set<string>, st: EngineState, scene: string, fuel: nat)
    requires PlaySceneRun(dm, loaded, st, scene, fuel).outcome.Done?
    ensures Settled(dm, PlaySceneRun(dm, loaded, st, scene, fuel).state)
    decreases fuel, 1
  {
    PlayObjSettles(dm, loaded, st.(cursor := Some(Cursor(scene, 0))), scene, 0, fuel);
  }

  lemma StepSettles(dm: DataMap, loaded: set<string>, st: EngineState, fuel: nat)
    requires StepRun(dm, loaded, st, fuel).outcome.Done?
    ensures Settled(dm, StepRun(dm, loaded, st, fuel).state)
  {
    var r := CheckStopRun(dm, st);
    var c := st.cursor.value;
    PlayObjSettles(dm, loaded, r.state.(cursor := Some(Cursor(c.scene, c.idx + 1))), c.scene, c.idx + 1, fuel);
  }

  /** A dispatch that did not run out of fuel ends the same way, in the same state, with any more fuel. */
  lemma {:induction false} PlayObjFuelMonotone(dm: DataMap, loaded: set<string>, st: EngineState, scene: string, idx: nat, fuel: nat, more: nat)
    requires fuel <= more
    requires PlayObjRun(dm, loaded, st, scene, idx, fuel).outcome != Failed(RecursionLimit)
    ensures PlayObjRun(dm, loaded, st, scene, idx, more) == PlayObjRun(dm, loaded, st, scene, idx, fuel)
    decreases fuel, 0
  {
    if EntryAt(dm, scene, idx).Ok? && EntryAt(dm, scene, idx).value.kind == Some(Cue) {
      var obj := EntryAt(dm, scene, idx).value;
      if obj.payload.Some? {
        PlaySceneFuelMonotone(dm, loaded, st, obj.payload.value, fuel - 1, more - 1);
      }
    }
  }

  lemma {:induction false} PlaySceneFuelMonotone(dm: DataMap, loaded: set<string>, st: EngineState, scene: string, fuel: nat, more: nat)
    requires fuel <= more
    requires PlaySceneRun(dm, loaded, st, scene, fuel).outcome != Failed(RecursionLimit)
    ensures PlaySceneRun(dm, loaded, st, scene, more) == PlaySceneRun(dm, loaded, st, scene, fuel)
    decreases fuel, 1
  {
    PlayObjFuelMonotone(dm, loaded, st.(cursor := Some(Cursor(scene, 0))), scene, 0, fuel, more);
  }

  /** A settled engine's `check_stop` cannot fail. */
  lemma SettledCheckStopSucceeds(dm: DataMap, st: EngineState)
    requires Settled(dm, st)
    ensures CheckStopRun(dm, st).outcome == Done
  {
  }

  /** Hence after a successful `start()`, the next `step()` gets past its `check_stop`. */
  lemma NextCheckStopSucceeds(dm: DataMap, loaded: set<string>, st: EngineState, scene: string, fuel: nat)
    requires PlaySceneRun(dm, loaded, st, scene, fuel).outcome.Done?
    ensures CheckStopRun(dm, PlaySceneRun(dm, loaded, st, scene, fuel).state).outcome == Done
  {
    PlaySceneSettles(dm, loaded, st, scene, fuel);
    SettledCheckStopSucceeds(dm, PlaySceneRun(dm, loaded, st, scene, fuel).state);
  }

  /** And after a successful `step()`, the next `step()` gets past its `check_stop` too. */
  lemma StepThenCheckStopSucceeds(dm: DataMap, loaded: set<string>, st: EngineState, fuel: nat)
    requires StepRun(dm, loaded, st, fuel).outcome.Done?
    ensures CheckStopRun(dm, StepRun(dm, loaded, st, fuel).state).outcome == Done
  {
    StepSettles(dm, loaded, st, fuel);
    SettledCheckStopSucceeds(dm, StepRun(dm, loaded, st, fuel).state);
  }

  /**
   * `play_sound` stores the new channel under exactly `(scene_id, idx)`,
   * replacing any channel already there; every other key keeps its channel.
   */
  lemma PlaySoundStoresUnderItsKey(dm: DataMap, loaded: set<string>, st: EngineState, scene: string, idx: nat)
    requires PlaySoundRun(dm, loaded, st, scene, idx).outcome.Done?
    ensures var r := PlaySoundRun(dm, loaded, st, scene, idx);
      var ch := Channel(EntryAt(dm, scene, idx).value.payload.value, (scene, idx));
      && r.state.channels == st.channels[(scene, idx) := ch]
      && r.state.log == st.log + [Played(ch)]
  {
  }

  /**
   * `check_stop` on a non-retained sound ends the channel at the current key
   * (a fade-out when the entry has `fadeout`, a stop otherwise) and deletes
   * exactly that key; for a retained sound or any other entry nothing changes.
   */
  lemma CheckStopEffect(dm: DataMap, st: EngineState)
    requires st.cursor.Some?
    requires CheckStopRun(dm, st).outcome.Done?
    ensures var c := st.cursor.value;
      EntryAt(dm, c.scene, c.idx).Ok? && EntryAt(dm, c.scene, c.idx).value.kind.Some?
    ensures var c := st.cursor.value;
      var obj := EntryAt(dm, c.scene, c.idx).value;
      var r := CheckStopRun(dm, st);
      && (!Stoppable(obj) <==> r.state == st)
      && (Stoppable(obj) ==>
            var key := (c.scene, c.idx);
            && key in st.channels
            && r.state.channels == st.channels - {key}
            && r.state.log == st.log + [if obj.fadeout.Some? then FadedOut(st.channels[key], obj.fadeout.value) else Stopped(st.channels[key])])
  {
    var c := st.cursor.value;
    var obj := EntryAt(dm, c.scene, c.idx).value;
    if Stoppable(obj) {
      assert |CheckStopRun(dm, st).state.log| == |st.log| + 1;
    }
  }

  /** A retained sound's channel is never removed: `check_stop` at any entry keeps it. */
  lemma RetainedChannelKept(dm: DataMap, st: EngineState, key: Key)
    requires key in st.channels && dm.scenes.Some? && key.0 in dm.scenes.value && key.1 < |dm.scenes.value[key.0]|
    requires dm.scenes.value[key.0][key.1].kind == Some(Sound) && dm.scenes.value[key.0][key.1].retain == Some(true)
    ensures key in CheckStopRun(dm, st).state.channels
    ensures CheckStopRun(dm, st).state.channels[key] == st.channels[key]
  {
    if st.cursor.Some? && (st.cursor.value.scene, st.cursor.value.idx) == key {
      assert !Stoppable(dm.scenes.value[key.0][key.1]);
    }
  }

  /** Dispatch knows only `sound` and `cue`: any other kind, `art` included, is a no-op. */
  lemma OtherKindsAreNoOps(dm: DataMap, loaded: set<string>, st: EngineState, scene: string, idx: nat, fuel: nat)
    requires EntryAt(dm, scene, idx).Ok? && EntryAt(dm, scene, idx).value.kind.Some?
    requires EntryAt(dm, scene, idx).value.kind.value !in {Sound, Cue} && WellTagged(EntryAt(dm, scene, idx).value.kind.value)
    ensures PlayObjRun(dm, loaded, st, scene, idx, fuel) == Run(st, Done)
  {
  }

  /** Nothing steps on its own: dispatching a sound never moves the cursor. */
  lemma SoundNeverAdvances(dm: DataMap, loaded: set<string>, st: EngineState, scene: string, idx: nat, fuel: nat)
    requires EntryAt(dm, scene, idx).Ok? && EntryAt(dm, scene, idx).value.kind == Some(Sound)
    ensures PlayObjRun(dm, loaded, st, scene, idx, fuel).state.cursor == st.cursor
  {
  }

  /** `step` has no bounds check: leaving the last entry runs off the end of the scene. */
  lemma StepPastEnd(dm: DataMap, loaded: set<string>, st: EngineState, fuel: nat)
    requires st.cursor.Some? && dm.scenes.Some? && st.cursor.value.scene in dm.scenes.value
    requires st.cursor.value.idx + 1 == |dm.scenes.value[st.cursor.value.scene]|
    requires CheckStopRun(dm, st).outcome.Done?
    ensures var c := st.cursor.value;
      StepRun(dm, loaded, st, fuel) ==
        Run(CheckStopRun(dm, st).state.(cursor := Some(Cursor(c.scene, c.idx + 1))), Failed(IndexOutOfRange(c.scene, c.idx + 1)))
  {
  }

  // ---------------------------------------------------------------------
  // Worked scripts.
  // ---------------------------------------------------------------------

  function SoundEntry(name: string, retain: bool): Entry {
    Entry(Some(Sound), Some(name), Some(name), None, None, if retain then Some(true) else None, None, None)
  }

  /** Scene `R = [retained sound r, sound s]`. */
  const RETAIN_MAP := DataMap(Some(map["R" := [SoundEntry("r", true), SoundEntry("s", false)]]), None, None,
    Some(map["r" := "r.wav", "s" := "s.wav"]), "", None)

  /** After `start()` and `step()` both channels are in the dictionary: the retained one is never cleaned up. */
  lemma RetainedExample()
    ensures var started := PlaySceneRun(RETAIN_MAP, {"r", "s"}, EngineState(None, map[], []), "R", 0);
      var stepped := StepRun(RETAIN_MAP, {"r", "s"}, started.state, 0);
      && started.outcome == Done && stepped.outcome == Done
      && stepped.state.channels.Keys == {("R", 0), ("R", 1)}
  {
    assert EntryAt(RETAIN_MAP, "R", 0) == Ok(SoundEntry("r", true));
    assert EntryAt(RETAIN_MAP, "R", 1) == Ok(SoundEntry("s", false));
  }

  /** Scene `G = [sound ghost, sound s]` where `ghost` was never loaded. */
  const GHOST_MAP := DataMap(Some(map["G" := [SoundEntry("ghost", false), SoundEntry("s", false)]]), None, None,
    Some(map["s" := "s.wav"]), "", None)

  /**
   * When `play_sound` fails, no channel is recorded, yet the engine has
   * already moved to the entry; the next `step()` then fails in `check_stop`
   * looking for the channel.
   */
  lemma FailedPlayBreaksNextStep()
    ensures var started := PlaySceneRun(GHOST_MAP, {"s"}, EngineState(None, map[], []), "G", 0);
      && started.outcome == Failed(UnknownSound("ghost"))
      && started.state.cursor == Some(Cursor("G", 0))
      && StepRun(GHOST_MAP, {"s"}, started.state, 0).outcome == Failed(NoChannel("G", 0))
  {
    assert EntryAt(GHOST_MAP, "G", 0) == Ok(SoundEntry("ghost", false));
  }
}
