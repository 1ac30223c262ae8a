/**
 * What the newer sequencer's operations promise, stated over the functions
 * of `SceneSequencer` (which the `Engine` methods are proved to follow).
 */
module SequencerFacts {
  import opened Wrappers
  import opened ScriptData
  import opened SceneSequencer
  import ST = SceneTypes

  /** `b` is `a` after more work: the log only grows, no player appears or vanishes, listeners only accumulate. */
  predicate Extends(a: EngineState, b: EngineState) {
    && a.log <= b.log
    && a.players.Keys == b.players.Keys
    && forall p :: p in a.players ==> a.players[p].listeners <= b.players[p].listeners
  }

  lemma ExtendsTrans(a: EngineState, b: EngineState, c: EngineState)
    requires Extends(a, b) && Extends(b, c)
    ensures Extends(a, c)
  {
    forall p | p in a.players
      ensures a.players[p].listeners <= c.players[p].listeners
    {
      assert b.players[p].listeners <= c.players[p].listeners;
    }
  }

  lemma AttachExtends(dm: DataMap, st: EngineState, scene: string, idx: nat)
    ensures Extends(st, AttachRun(dm, st, scene, idx).state)
  {
  }

  lemma PlaySoundExtends(dm: DataMap, st: EngineState, scene: string, idx: nat)
    ensures Extends(st, PlaySoundRun(dm, st, scene, idx).state)
  {
    match EntryAt(dm, scene, idx)
    case Err(_) =>
    case Ok(obj) =>
      if obj.payload.Some? && obj.payload.value in st.players {
        var p := obj.payload.value;
        var looping := obj.loop.Some? && Truthy(obj.loop.value);
        var st1 := WithPlayer(st, p, st.players[p].(loops := if looping then Infinite else Once));
        assert Extends(st, st1);
        if looping {
          AttachExtends(dm, st1, scene, idx);
          ExtendsTrans(st, st1, AttachRun(dm, st1, scene, idx).state);
        }
      }
  }

  lemma CheckStopExtends(dm: DataMap, st: EngineState)
    ensures Extends(st, CheckStopRun(dm, st).state)
  {
  }

  /**
   * Whatever the sequencer does, it only appends to the log and only adds
   * listeners: nothing it emits is retracted and no listener is ever removed.
   */
  lemma {:induction false} PlayObjExtends(dm: DataMap, st: EngineState, scene: string, idx: nat, fuel: nat)
    ensures Extends(st, PlayObjRun(dm, st, scene, idx, fuel).state)
    decreases fuel, 0
  {
    match EntryAt(dm, scene, idx)
    case Err(_) =>
    case Ok(obj) =>
      match obj.kind
      case None =>
      case Some(Sound) =>
        var r := PlaySoundRun(dm, st, scene, idx);
        PlaySoundExtends(dm, st, scene, idx);
        if r.outcome.Done? && obj.step == Some(true) && fuel > 0 {
          StepExtends(dm, r.state, fuel - 1);
          ExtendsTrans(st, r.state, StepRun(dm, r.state, fuel - 1).state);
        }
      case Some(Cue) =>
        if obj.payload.Some? && fuel > 0 {
          PlaySceneExtends(dm, st, obj.payload.value, fuel - 1);
        }
      case Some(Art) =>
        if obj.payload.Some? {
          var st1 := Emit(st, [ShowImage(obj.payload.value, obj.scale.GetOr(1.0))]);
          assert Extends(st, st1);
          if obj.step != Some(false) && fuel > 0 {
            StepExtends(dm, st1, fuel - 1);
            ExtendsTrans(st, st1, StepRun(dm, st1, fuel - 1).state);
          }
        }
      case Some(Unknown(_)) =>
  }

  lemma {:induction false} StepExtends(dm: DataMap, st: EngineState, fuel: nat)
    ensures Extends(st, StepRun(dm, st, fuel).state)
    decreases fuel, 1
  {
    var r := CheckStopRun(dm, st);
    CheckStopExtends(dm, st);
    if r.outcome.Done? {
      var c := st.cursor.value;
      var moved := r.state.(cursor := Some(Cursor(c.scene, c.idx + 1)));
      PlayObjExtends(dm, moved, c.scene, c.idx + 1, fuel);
      ExtendsTrans(st, moved, PlayObjRun(dm, moved, c.scene, c.idx + 1, fuel).state);
    }
  }

  lemma {:induction false} PlaySceneExtends(dm: DataMap, st: EngineState, scene: string, fuel: nat)
    ensures Extends(st, PlaySceneRun(dm, st, scene, fuel).state)
    decreases fuel, 1
  {
    PlayObjExtends(dm, st.(cursor := Some(Cursor(scene, 0))), scene, 0, fuel);
  }

  /** `play_scene` moves to `(scene, 0)` before it looks the scene up: a missing scene leaves the engine there. */
  lemma PlaySceneMovesFirst(dm: DataMap, st: EngineState, scene: string, fuel: nat)
    requires EntryAt(dm, scene, 0).Err?
    ensures PlaySceneRun(dm, st, scene, fuel) == Run(st.(cursor := Some(Cursor(scene, 0))), Failed(EntryAt(dm, scene, 0).error))
  {
  }

  /**
   * A `cue` ignores where it was reached from: dispatching it from any
   * position in any scene is `play_scene(payload)` on the same players and log.
   */
  lemma CueDiscardsCaller(dm: DataMap, st: EngineState, scene: string, idx: nat, other: Option<Cursor>, fuel: nat)
    requires EntryAt(dm, scene, idx).Ok? && EntryAt(dm, scene, idx).value.kind == Some(Cue)
    requires EntryAt(dm, scene, idx).value.payload.Some? && fuel > 0
    ensures PlayObjRun(dm, st, scene, idx, fuel) == PlaySceneRun(dm, st.(cursor := other), EntryAt(dm, scene, idx).value.payload.value, fuel - 1)
  {
    var target := EntryAt(dm, scene, idx).value.payload.value;
    assert st.(cursor := Some(Cursor(target, 0))) == st.(cursor := other).(cursor := Some(Cursor(target, 0)));
  }

  /**
   * `step` has no bounds check: leaving the last entry of a scene moves the
   * cursor past the end and the lookup there fails; the engine neither wraps
   * nor returns to idle (`loop_scenes` is never consulted).
   */
  lemma StepPastEnd(dm: DataMap, st: EngineState, fuel: nat)
    requires st.cursor.Some? && dm.scenes.Some? && st.cursor.value.scene in dm.scenes.value
    requires st.cursor.value.idx + 1 == |dm.scenes.value[st.cursor.value.scene]|
    requires CheckStopRun(dm, st).outcome.Done?
    ensures var c := st.cursor.value;
      StepRun(dm, st, fuel) ==
        Run(CheckStopRun(dm, st).state.(cursor := Some(Cursor(c.scene, c.idx + 1))), Failed(IndexOutOfRange(c.scene, c.idx + 1)))
  {
  }

  /**
   * `check_stop` on the current entry: a non-retained sound gets one
   * `clear_loop` and exactly one stop of its own player (with a fade-out when
   * one is configured); its `fadeoutT` is overwritten only when the entry has
   * `fadeout`. Anything else leaves the state as it was.
   */
  lemma CheckStopEffect(dm: DataMap, st: EngineState)
    requires st.cursor.Some? && EntryAt(dm, st.cursor.value.scene, st.cursor.value.idx).Ok?
    requires CheckStopRun(dm, st).outcome.Done?
    ensures var obj := EntryAt(dm, st.cursor.value.scene, st.cursor.value.idx).value;
      !Stoppable(obj) <==> CheckStopRun(dm, st).state == st
    ensures var obj := EntryAt(dm, st.cursor.value.scene, st.cursor.value.idx).value;
      Stoppable(obj) ==> obj.payload.Some? && obj.payload.value in st.players
    ensures var obj := EntryAt(dm, st.cursor.value.scene, st.cursor.value.idx).value;
      var r := CheckStopRun(dm, st);
      Stoppable(obj) ==>
        var p := obj.payload.value;
        var fade := if obj.fadeout.Some? then obj.fadeout else st.players[p].fadeoutT;
        && r.state.players == st.players[p := st.players[p].(fadeoutT := fade)]
        && r.state.log == st.log + [ClearLoop, Stopped(p)] + (if fade.Some? then [FadedOut(p, fade.value)] else [])
  {
    var obj := EntryAt(dm, st.cursor.value.scene, st.cursor.value.idx).value;
    if Stoppable(obj) {
      var r := CheckStopRun(dm, st);
      assert |r.state.log| > |st.log|;
    }
  }

  /**
   * `play_sound`: the loop mode is Infinite iff `loop` is truthy, and only
   * then is one listener for `(scene, id)` appended; the player then plays.
   * No other player changes.
   */
  lemma PlaySoundEffect(dm: DataMap, st: EngineState, scene: string, idx: nat)
    requires PlaySoundRun(dm, st, scene, idx).outcome.Done?
    ensures EntryAt(dm, scene, idx).Ok? && EntryAt(dm, scene, idx).value.payload.Some?
    ensures EntryAt(dm, scene, idx).value.payload.value in st.players
    ensures var obj := EntryAt(dm, scene, idx).value;
      obj.loop.Some? && Truthy(obj.loop.value) ==> obj.id.Some?
    ensures var obj := EntryAt(dm, scene, idx).value;
      var p := obj.payload.value;
      var looping := obj.loop.Some? && Truthy(obj.loop.value);
      var r := PlaySoundRun(dm, st, scene, idx);
      && r.state.players == st.players[p := st.players[p].(
           loops := if looping then Infinite else Once,
           listeners := st.players[p].listeners + if looping then [Listener(scene, obj.id.value)] else [])]
      && r.state.log == st.log + PlayEvents(p, r.state.players[p])
  {
    var obj := EntryAt(dm, scene, idx).value;
    var p := obj.payload.value;
    var looping := obj.loop.Some? && Truthy(obj.loop.value);
    var st1 := WithPlayer(st, p, st.players[p].(loops := if looping then Infinite else Once));
    if looping {
      assert AttachRun(dm, st1, scene, idx).outcome.Done?;
      assert Payload(dm, scene, idx) == Ok(p);
      assert CueId(dm, scene, idx) == Ok(obj.id.value);
      var ps := st1.players[p];
      var after := WithPlayer(st1, p, ps.(listeners := ps.listeners + [Listener(scene, obj.id.value)]));
      assert AttachRun(dm, st1, scene, idx).state == after;
      assert after.players == st.players[p := ps.(listeners := ps.listeners + [Listener(scene, obj.id.value)])];
    } else {
      assert st.players[p].listeners + [] == st.players[p].listeners;
      assert st1.players == st.players[p := st.players[p].(loops := Once, listeners := st.players[p].listeners + [])];
    }
  }

  /**
   * Listeners are never removed, so playing the same looping entry twice
   * leaves two listeners on its player and each loop boundary then reports
   * the entry twice.
   */
  lemma RepeatedLoopingPlayDoubleFires(dm: DataMap, st: EngineState, scene: string, idx: nat)
    requires EntryAt(dm, scene, idx).Ok?
    requires var obj := EntryAt(dm, scene, idx).value;
      obj.payload.Some? && obj.payload.value in st.players && obj.id.Some? && obj.loop == Some(Bool(true))
    requires st.players[EntryAt(dm, scene, idx).value.payload.value].listeners == []
    ensures var obj := EntryAt(dm, scene, idx).value;
      var twice := PlaySoundRun(dm, PlaySoundRun(dm, st, scene, idx).state, scene, idx);
      && twice.outcome.Done?
      && LoopEvents(twice.state.players[obj.payload.value].listeners, 0) == [Looped(scene, obj.id.value), Looped(scene, obj.id.value)]
  {
    var obj := EntryAt(dm, scene, idx).value;
    var once := PlaySoundRun(dm, st, scene, idx);
    assert once.outcome.Done?;
    PlaySoundEffect(dm, st, scene, idx);
    var twice := PlaySoundRun(dm, once.state, scene, idx);
    assert twice.outcome.Done?;
    PlaySoundEffect(dm, once.state, scene, idx);
    var ls := twice.state.players[obj.payload.value].listeners;
    assert ls == [Listener(scene, obj.id.value), Listener(scene, obj.id.value)];
    assert ls[..1] == [Listener(scene, obj.id.value)];
  }

  /**
   * Fuel only bounds the depth of the `step`/`cue` chain: a run that did not
   * run out of it ends the same way, in the same state, with any more fuel.
   */
  lemma {:induction false} PlayObjFuelMonotone(dm: DataMap, st: EngineState, scene: string, idx: nat, fuel: nat, more: nat)
    requires fuel <= more
    requires PlayObjRun(dm, st, scene, idx, fuel).outcome != Failed(RecursionLimit)
    ensures PlayObjRun(dm, st, scene, idx, more) == PlayObjRun(dm, st, scene, idx, fuel)
    decreases fuel, 0
  {
    if EntryAt(dm, scene, idx).Ok? && EntryAt(dm, scene, idx).value.kind.Some? {
      var obj := EntryAt(dm, scene, idx).value;
      match obj.kind.value
      case Sound =>
        var r := PlaySoundRun(dm, st, scene, idx);
        if r.outcome.Done? && obj.step == Some(true) {
          StepFuelMonotone(dm, r.state, fuel - 1, more - 1);
        }
      case Cue =>
        if obj.payload.Some? {
          PlaySceneFuelMonotone(dm, st, obj.payload.value, fuel - 1, more - 1);
        }
      case Art =>
        if obj.payload.Some? && obj.step != Some(false) {
          StepFuelMonotone(dm, Emit(st, [ShowImage(obj.payload.value, obj.scale.GetOr(1.0))]), fuel - 1, more - 1);
        }
      case Unknown(_) =>
    }
  }

  lemma {:induction false} PlaySceneFuelMonotone(dm: DataMap, st: EngineState, scene: string, fuel: nat, more: nat)
    requires fuel <= more
    requires PlaySceneRun(dm, st, scene, fuel).outcome != Failed(RecursionLimit)
    ensures PlaySceneRun(dm, st, scene, more) == PlaySceneRun(dm, st, scene, fuel)
    decreases fuel, 1
  {
    PlayObjFuelMonotone(dm, st.(cursor := Some(Cursor(scene, 0))), scene, 0, fuel, more);
  }

  lemma {:induction false} StepFuelMonotone(dm: DataMap, st: EngineState, fuel: nat, more: nat)
    requires fuel <= more
    requires StepRun(dm, st, fuel).outcome != Failed(RecursionLimit)
    ensures StepRun(dm, st, more) == StepRun(dm, st, fuel)
    decreases fuel, 1
  {
    var r := CheckStopRun(dm, st);
    if r.outcome.Done? {
      var c := st.cursor.value;
      PlayObjFuelMonotone(dm, r.state.(cursor := Some(Cursor(c.scene, c.idx + 1))), c.scene, c.idx + 1, fuel, more);
    }
  }

  /** An entry whose `type` is not one the engine knows changes nothing. */
  lemma UnknownIsNoOp(dm: DataMap, st: EngineState, scene: string, idx: nat, fuel: nat)
    requires EntryAt(dm, scene, idx).Ok? && EntryAt(dm, scene, idx).value.kind.Some?
    requires EntryAt(dm, scene, idx).value.kind.value.Unknown? && WellTagged(EntryAt(dm, scene, idx).value.kind.value)
    ensures PlayObjRun(dm, st, scene, idx, fuel) == Run(st, Done)
  {
  }

  /**
   * The auto-step defaults of the declared schema: a sound holds unless its
   * `step` is true; an art entry shows its image (scale 1.0 by default) and
   * steps unless its `step` is false.
   */
  lemma SoundAutoStep(o: ST.SceneObject, dm: DataMap, st: EngineState, scene: string, idx: nat, fuel: nat)
    requires o.kind == ST.Sound && EntryAt(dm, scene, idx) == Ok(ST.ToEntry(o)) && fuel > 0
    requires PlaySoundRun(dm, st, scene, idx).outcome.Done?
    ensures var played := PlaySoundRun(dm, st, scene, idx).state;
      PlayObjRun(dm, st, scene, idx, fuel) == if ST.AutoSteps(o) then StepRun(dm, played, fuel - 1) else Run(played, Done)
  {
  }

  lemma ArtAutoStep(o: ST.SceneObject, dm: DataMap, st: EngineState, scene: string, idx: nat, fuel: nat)
    requires o.kind == ST.Art && EntryAt(dm, scene, idx) == Ok(ST.ToEntry(o)) && fuel > 0
    ensures var shown := Emit(st, [ShowImage(o.payload, o.scale.GetOr(1.0))]);
      PlayObjRun(dm, st, scene, idx, fuel) == if ST.AutoSteps(o) then StepRun(dm, shown, fuel - 1) else Run(shown, Done)
  {
  }

  // ---------------------------------------------------------------------
  // Worked scripts.
  // ---------------------------------------------------------------------

  function SoundEntry(name: string, loop: bool): Entry {
    Entry(Some(Sound), Some(name), Some(name), if loop then Some(Bool(true)) else None, None, None, None, None)
  }

  const FRESH := PlayerState(None, None, Once, [])

  /** Scene `A = [sound s1, cue -> B]`, scene `B = [sound s2]`. */
  const CUE_MAP := DataMap(
    Some(map["A" := [SoundEntry("s1", false), Entry(Some(Cue), Some("jump"), Some("B"), None, None, None, None, None)],
             "B" := [SoundEntry("s2", false)]]),
    Some(map["s1" := "s1.ogg", "s2" := "s2.ogg"]), None, None, "", None)

  const IDLE := EngineState(None, map["s1" := FRESH, "s2" := FRESH], [])

  /**
   * `start(A)` plays `s1`; `step()` stops `s1`, reaches the cue and jumps:
   * the engine is at `(B, 0)` with `s2` playing.
   */
  lemma CueJumpExample()
    ensures PlaySceneRun(CUE_MAP, IDLE, "A", 1) == Run(IDLE.(cursor := Some(Cursor("A", 0)), log := [Played("s1")]), Done)
    ensures var started := PlaySceneRun(CUE_MAP, IDLE, "A", 1).state;
      var stepped := StepRun(CUE_MAP, started, 1);
      && stepped.outcome == Done
      && stepped.state.cursor == Some(Cursor("B", 0))
      && stepped.state.log == [Played("s1"), ClearLoop, Stopped("s1"), Played("s2")]
  {
    var st0 := IDLE.(cursor := Some(Cursor("A", 0)));
    assert EntryAt(CUE_MAP, "A", 0) == Ok(SoundEntry("s1", false));
    assert PlaySoundRun(CUE_MAP, st0, "A", 0).outcome == Done;
    PlaySoundEffect(CUE_MAP, st0, "A", 0);
    assert st0.players["s1" := FRESH] == st0.players;
    var started := IDLE.(cursor := Some(Cursor("A", 0)), log := [Played("s1")]);
    var r0 := PlaySoundRun(CUE_MAP, st0, "A", 0);
    assert PlayEvents("s1", FRESH) == [Played("s1")];
    assert r0.state.cursor == started.cursor && r0.state.players == started.players;
    assert r0.state.log == started.log;
    assert r0 == Run(started, Done);

    assert CheckStopRun(CUE_MAP, started).outcome == Done;
    CheckStopEffect(CUE_MAP, started);
    assert started.players["s1" := FRESH] == started.players;
    var stopped := started.(log := [Played("s1"), ClearLoop, Stopped("s1")]);
    var r1 := CheckStopRun(CUE_MAP, started);
    assert started.log + [ClearLoop, Stopped("s1")] + [] == stopped.log;
    assert r1.state.cursor == stopped.cursor && r1.state.players == stopped.players;
    assert r1.state.log == stopped.log;
    assert r1 == Run(stopped, Done);

    assert EntryAt(CUE_MAP, "A", 1).value.kind == Some(Cue);
    var atB := stopped.(cursor := Some(Cursor("B", 0)));
    assert EntryAt(CUE_MAP, "B", 0) == Ok(SoundEntry("s2", false));
    assert PlaySoundRun(CUE_MAP, atB, "B", 0).outcome == Done;
    PlaySoundEffect(CUE_MAP, atB, "B", 0);
    assert atB.players["s2" := FRESH] == atB.players;
    var r2 := PlaySoundRun(CUE_MAP, atB, "B", 0);
    assert PlayEvents("s2", FRESH) == [Played("s2")];
    assert r2.state.log == [Played("s1"), ClearLoop, Stopped("s1"), Played("s2")];
    assert r2.state.cursor == Some(Cursor("B", 0));
  }

  /** Scene `C = [art]`: the art steps by default and the step runs off the end. */
  const ART_MAP := DataMap(
    Some(map["C" := [Entry(Some(Art), Some("map"), Some("map"), None, None, None, None, None)]]),
    Some(map[]), None, None, "", None)

  lemma EndOfSceneExample(fuel: nat)
    requires fuel > 0
    ensures PlaySceneRun(ART_MAP, EngineState(None, map[], []), "C", fuel)
      == Run(EngineState(Some(Cursor("C", 1)), map[], [ShowImage("map", 1.0)]), Failed(IndexOutOfRange("C", 1)))
  {
    var st0 := EngineState(Some(Cursor("C", 0)), map[], []);
    var shown := EngineState(Some(Cursor("C", 0)), map[], [ShowImage("map", 1.0)]);
    assert EntryAt(ART_MAP, "C", 0).value.kind == Some(Art);
    assert [] + [ShowImage("map", 1.0)] == [ShowImage("map", 1.0)];
    assert Emit(st0, [ShowImage("map", 1.0)]) == shown;
    assert PlayObjRun(ART_MAP, st0, "C", 0, fuel) == StepRun(ART_MAP, shown, fuel - 1);
    assert CheckStopRun(ART_MAP, shown) == Run(shown, Done);
    assert EntryAt(ART_MAP, "C", 1) == Err(IndexOutOfRange("C", 1));
  }

  /**
   * Scene `L = [looping sound s, art (no step)]`: after `start(L)` and
   * `step()` the sound is stopped, yet its listener is still connected, so a
   * loop boundary on that player still reports `(L, s)`.
   */
  const LOOP_MAP := DataMap(
    Some(map["L" := [SoundEntry("s", true), Entry(Some(Art), Some("a"), Some("a"), None, Some(false), None, None, None)]]),
    Some(map["s" := "s.ogg"]), None, None, "", None)

  lemma StaleListenerStillFires()
    ensures var started := PlaySceneRun(LOOP_MAP, EngineState(None, map["s" := FRESH], []), "L", 1);
      var stepped := StepRun(LOOP_MAP, started.state, 1);
      && started.outcome == Done && stepped.outcome == Done
      && Stopped("s") in stepped.state.log
      && LoopEvents(stepped.state.players["s"].listeners, 0) == [Looped("L", "s")]
  {
    var st0 := EngineState(Some(Cursor("L", 0)), map["s" := FRESH], []);
    assert EntryAt(LOOP_MAP, "L", 0) == Ok(SoundEntry("s", true));
    assert PlaySoundRun(LOOP_MAP, st0, "L", 0).outcome == Done;
    PlaySoundEffect(LOOP_MAP, st0, "L", 0);
    var looping := PlayerState(None, None, Infinite, [Listener("L", "s")]);
    var started := EngineState(Some(Cursor("L", 0)), map["s" := looping], [Played("s")]);
    assert [] + [Listener("L", "s")] == [Listener("L", "s")];
    assert st0.players["s" := looping] == started.players;
    assert PlayEvents("s", looping) == [Played("s")];
    var r := PlaySoundRun(LOOP_MAP, st0, "L", 0);
    assert r.state.cursor == started.cursor;
    assert r.state.players == started.players;
    assert r.state.log == started.log;
    assert PlaySoundRun(LOOP_MAP, st0, "L", 0) == Run(started, Done);

    assert CheckStopRun(LOOP_MAP, started).outcome == Done;
    CheckStopEffect(LOOP_MAP, started);
    assert started.players["s" := looping] == started.players;
    var stopped := started.(log := [Played("s"), ClearLoop, Stopped("s")]);
    assert started.log + [ClearLoop, Stopped("s")] + [] == stopped.log;
    assert CheckStopRun(LOOP_MAP, started) == Run(stopped, Done);

    assert EntryAt(LOOP_MAP, "L", 1).value.kind == Some(Art);
    var stepped := StepRun(LOOP_MAP, started, 1);
    assert stepped.state.players["s"] == looping;
    assert stepped.state.log[2] == Stopped("s");
  }

  /** `A = [cue -> A]`: the cue chain never ends and exhausts any stack (Python's `RecursionError`). */
  const CYCLE_MAP := DataMap(
    Some(map["A" := [Entry(Some(Cue), Some("again"), Some("A"), None, None, None, None, None)]]),
    Some(map[]), None, None, "", None)

  lemma {:induction false} CueCycleExhaustsFuel(st: EngineState, fuel: nat)
    ensures PlaySceneRun(CYCLE_MAP, st, "A", fuel).outcome == Failed(RecursionLimit)
    decreases fuel
  {
    assert EntryAt(CYCLE_MAP, "A", 0).value.kind == Some(Cue);
    if fuel > 0 {
      CueCycleExhaustsFuel(st.(cursor := Some(Cursor("A", 0))), fuel - 1);
    }
  }
}
