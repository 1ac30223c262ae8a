/**
 * The newer scene sequencer (`SoundEngine` and `SoundPlayer` of
 * sound_r/sounds/sound_engine.py): a state machine over the current
 * `(scene_id, idx)` that dispatches each scene entry on its `type` tag.
 *
 * The audio backend and the Qt signals are replaced by an event log: what the
 * backend is asked to do (`Played`, `FadedIn`, `Stopped`, `FadedOut`) and what
 * the engine emits (`ShowImage` for `select_image`, `ClearLoop` for
 * `clear_loop`, `Looped` for `sound_looped`).
 *
 * The first half gives the behaviour as functions over an `EngineState`
 * value; the classes in the second half do the same work by updating fields
 * and are proved to agree with those functions.
 */
module SceneSequencer {
  import opened Wrappers
  import opened ScriptData
  import Validation

  /** `QMediaPlayer.Loops.Once` or `Loops.Infinite`. */
  datatype LoopMode = Once | Infinite

  /** One `emit_on_loop` closure connected to a player's `positionChanged`: it reports `(scene_id, sound_id)`. */
  datatype Listener = Listener(scene: string, id: string)

  /** What the backend is asked to do and what the engine emits, in order. */
  datatype Event =
    | Played(sound: string)
    | FadedIn(sound: string, ms: int)
    | Stopped(sound: string)
    | FadedOut(sound: string, ms: int)
    | ShowImage(art: string, scale: real)
    | ClearLoop
    | Looped(scene: string, id: string)

  /** The state of one `SoundPlayer` that the engine can change or observe. */
  datatype PlayerState = PlayerState(fadeinT: Option<int>, fadeoutT: Option<int>, loops: LoopMode, listeners: seq<Listener>)

  /** The engine's state: its position (absent before the first `play_scene`), its players, and the log. */
  datatype EngineState = EngineState(cursor: Option<Cursor>, players: map<string, PlayerState>, log: seq<Event>)

  /** The events of `SoundPlayer.play`: the backend plays, then the fade-in ramp starts if one is configured. */
  function PlayEvents(sound: string, p: PlayerState): (evs: seq<Event>)
    ensures |evs| >= 1 && evs[0] == Played(sound)
    ensures |evs| == 2 <==> p.fadeinT.Some?
    ensures |evs| <= 2 && (|evs| == 2 ==> evs[1] == FadedIn(sound, p.fadeinT.value))
  {
    [Played(sound)] + if p.fadeinT.Some? then [FadedIn(sound, p.fadeinT.value)] else []
  }

  /**
   * The events of `SoundPlayer.stop`: the backend stops FIRST, and only then
   * does the fade-out ramp start, if one is configured.
   */
  function StopEvents(sound: string, p: PlayerState): (evs: seq<Event>)
    ensures |evs| >= 1 && evs[0] == Stopped(sound)
    ensures |evs| == 2 <==> p.fadeoutT.Some?
    ensures |evs| <= 2 && (|evs| == 2 ==> evs[1] == FadedOut(sound, p.fadeoutT.value))
  {
    [Stopped(sound)] + if p.fadeoutT.Some? then [FadedOut(sound, p.fadeoutT.value)] else []
  }

  /** What the listeners of a player emit when its position changes to `pos`, in connection order. */
  function LoopEvents(ls: seq<Listener>, pos: int): (evs: seq<Event>)
    ensures |evs| == if pos == 0 then |ls| else 0
    ensures pos == 0 ==> forall k :: 0 <= k < |ls| ==> evs[k] == Looped(ls[k].scene, ls[k].id)
  {
    if ls == [] then []
    else LoopEvents(ls[..|ls| - 1], pos) + if pos == 0 then [Looped(ls[|ls| - 1].scene, ls[|ls| - 1].id)] else []
  }

  /** The state with player `p` replaced. */
  function WithPlayer(st: EngineState, p: string, ps: PlayerState): EngineState {
    st.(players := st.players[p := ps])
  }

  /** The state with `evs` appended to the log. */
  function Emit(st: EngineState, evs: seq<Event>): EngineState {
    st.(log := st.log + evs)
  }

  /** `attach_on_loop(scene_id, idx)`: connect a listener for this entry to its sound's player. */
  function AttachRun(dm: DataMap, st: EngineState, scene: string, idx: nat): (r: Run<EngineState>)
    ensures r.state.players.Keys == st.players.Keys && r.state.log == st.log && r.state.cursor == st.cursor
    ensures r.outcome.Done? <==>
      Payload(dm, scene, idx).Ok? && CueId(dm, scene, idx).Ok? && Payload(dm, scene, idx).value in st.players
    ensures r.outcome.Failed? ==> r.state == st
    ensures r.outcome.Done? ==>
      var p := Payload(dm, scene, idx).value;
      r.state.players == st.players[p := st.players[p].(listeners := st.players[p].listeners + [Listener(scene, CueId(dm, scene, idx).value)])]
  {
    match Payload(dm, scene, idx)
    case Err(f) => Run(st, Failed(f))
    case Ok(p) =>
      match CueId(dm, scene, idx)
      case Err(f) => Run(st, Failed(f))
      case Ok(id) =>
        if p !in st.players then Run(st, Failed(UnknownSound(p)))
        else
          var ps := st.players[p];
          Run(WithPlayer(st, p, ps.(listeners := ps.listeners + [Listener(scene, id)])), Done)
  }

  /** The first half of `play_sound`: set player `p`'s loop mode and, when looping, attach a listener. */
  function LoopRun(dm: DataMap, st: EngineState, scene: string, idx: nat, p: string, looping: bool): (r: Run<EngineState>)
    requires p in st.players
    ensures r.state.players.Keys == st.players.Keys && r.state.log == st.log && r.state.cursor == st.cursor
    ensures r.state.players[p].loops == if looping then Infinite else Once
  {
    var st1 := WithPlayer(st, p, st.players[p].(loops := if looping then Infinite else Once));
    if looping then AttachRun(dm, st1, scene, idx) else Run(st1, Done)
  }

  /** `play_sound(scene_id, idx)`: set the loop mode, attach a listener when looping, then play. */
  function PlaySoundRun(dm: DataMap, st: EngineState, scene: string, idx: nat): (r: Run<EngineState>)
    ensures r.state.players.Keys == st.players.Keys && r.state.cursor == st.cursor
  {
    match EntryAt(dm, scene, idx)
    case Err(f) => Run(st, Failed(f))
    case Ok(obj) =>
      if obj.payload.None? then Run(st, Failed(MissingField(PayloadField)))
      else
        var p := obj.payload.value;
        if p !in st.players then Run(st, Failed(UnknownSound(p)))
        else
          var att := LoopRun(dm, st, scene, idx, p, obj.loop.Some? && Truthy(obj.loop.value));
          if att.outcome.Failed? then att
          else Run(Emit(att.state, PlayEvents(p, att.state.players[p])), Done)
  }

  /** Whether `check_stop` stops an entry: a sound whose `retain` is not true. */
  predicate Stoppable(obj: Entry) {
    obj.kind == Some(Sound) && obj.retain != Some(true)
  }

  /**
   * `check_stop()`: leaving a non-retained sound copies its `fadeout` (when
   * present) into the player, emits `clear_loop`, and stops the player.
   */
  function CheckStopRun(dm: DataMap, st: EngineState): (r: Run<EngineState>)
    ensures r.state.players.Keys == st.players.Keys && r.state.cursor == st.cursor
    ensures r.outcome.Done? ==> st.cursor.Some?
  {
    if dm.scenes.None? then Run(st, Failed(ScenesKeyMissing))
    else if st.cursor.None? then Run(st, Failed(NotStarted))
    else
      var c := st.cursor.value;
      match EntryAt(dm, c.scene, c.idx)
      case Err(f) => Run(st, Failed(f))
      case Ok(obj) =>
        if obj.kind.None? then Run(st, Failed(MissingField(TypeField)))
        else if !Stoppable(obj) then Run(st, Done)
        else if obj.fadeout.Some? && obj.payload.None? then Run(st, Failed(MissingField(PayloadField)))
        else if obj.fadeout.Some? && obj.payload.value !in st.players then Run(st, Failed(UnknownSound(obj.payload.value)))
        else
          var st1 := if obj.fadeout.Some?
            then WithPlayer(st, obj.payload.value, st.players[obj.payload.value].(fadeoutT := obj.fadeout))
            else st;
          StopRun(Emit(st1, [ClearLoop]), obj.payload)
  }

  /** The end of `check_stop`: `self.sounds[payload].stop()`. */
  function StopRun(st: EngineState, payload: Option<string>): (r: Run<EngineState>)
    ensures r.state.players == st.players && r.state.cursor == st.cursor
    ensures r.outcome.Done? <==> payload.Some? && payload.value in st.players
    ensures r.outcome.Done? ==> r.state.log == st.log + StopEvents(payload.value, st.players[payload.value])
    ensures r.outcome.Failed? ==> r.state == st
  {
    if payload.None? then Run(st, Failed(MissingField(PayloadField)))
    else if payload.value !in st.players then Run(st, Failed(UnknownSound(payload.value)))
    else Run(Emit(st, StopEvents(payload.value, st.players[payload.value])), Done)
  }

  /**
   * `play_obj(scene_id, idx)`: dispatch on the entry's `type`. `fuel` bounds
   * the nesting of `step` and `play_scene` calls, standing for Python's
   * finite stack.
   */
  function PlayObjRun(dm: DataMap, st: EngineState, scene: string, idx: nat, fuel: nat): (r: Run<EngineState>)
    ensures r.state.players.Keys == st.players.Keys
    decreases fuel, 0
  {
    match EntryAt(dm, scene, idx)
    case Err(f) => Run(st, Failed(f))
    case Ok(obj) =>
      match obj.kind
      case None => Run(st, Failed(MissingField(TypeField)))
      case Some(Sound) =>
        var r := PlaySoundRun(dm, st, scene, idx);
        if r.outcome.Failed? || obj.step != Some(true) then r
        else if fuel == 0 then Run(r.state, Failed(RecursionLimit))
        else StepRun(dm, r.state, fuel - 1)
      case Some(Cue) =>
        if obj.payload.None? then Run(st, Failed(MissingField(PayloadField)))
        else if fuel == 0 then Run(st, Failed(RecursionLimit))
        else PlaySceneRun(dm, st, obj.payload.value, fuel - 1)
      case Some(Art) =>
        if obj.payload.None? then Run(st, Failed(MissingField(PayloadField)))
        else
          var st1 := Emit(st, [ShowImage(obj.payload.value, obj.scale.GetOr(1.0))]);
          if obj.step == Some(false) then Run(st1, Done)
          else if fuel == 0 then Run(st1, Failed(RecursionLimit))
          else StepRun(dm, st1, fuel - 1)
      case Some(Unknown(_)) => Run(st, Done)
  }

  /** `play_scene(scene_id)`: move to index 0 of the scene, then dispatch that entry. */
  function PlaySceneRun(dm: DataMap, st: EngineState, scene: string, fuel: nat): (r: Run<EngineState>)
    ensures r.state.players.Keys == st.players.Keys
    decreases fuel, 1
  {
    PlayObjRun(dm, st.(cursor := Some(Cursor(scene, 0))), scene, 0, fuel)
  }

  /** `step()`: `check_stop`, then `idx += 1`, then dispatch; there is no bounds check. */
  function StepRun(dm: DataMap, st: EngineState, fuel: nat): (r: Run<EngineState>)
    ensures r.state.players.Keys == st.players.Keys
    decreases fuel, 1
  {
    var r := CheckStopRun(dm, st);
    if r.outcome.Failed? then r
    else
      var c := st.cursor.value;
      PlayObjRun(dm, r.state.(cursor := Some(Cursor(c.scene, c.idx + 1))), c.scene, c.idx + 1, fuel)
  }

  // ---------------------------------------------------------------------
  // The objects.
  // ---------------------------------------------------------------------

  /** `SoundPlayer`: a media player with optional fade-in and fade-out durations. */
  class SoundPlayer {
    /** The sound id the player was loaded for; it labels the events. */
    const sound: string
    /** The sound file, relative to the `sounds` directory. */
    const source: string
    var fadeinT: Option<int>
    var fadeoutT: Option<int>
    var loops: LoopMode
    /** The closures connected to `positionChanged`, in connection order. */
    var listeners: seq<Listener>

    /** The player's state as the engine sees it. */
    function Config(): PlayerState
      reads this
    {
      PlayerState(fadeinT, fadeoutT, loops, listeners)
    }

    constructor (sound: string, source: string, fadein: Option<int>, fadeout: Option<int>)
      ensures this.sound == sound && this.source == source
      ensures Config() == PlayerState(fadein, fadeout, Once, [])
    {
      this.sound := sound;
      this.source := source;
      fadeinT := fadein;
      fadeoutT := fadeout;
      loops := Once;
      listeners := [];
    }

    /** `play()`: the backend starts, then the fade-in ramp (if configured) starts. */
    method Play() returns (evs: seq<Event>)
      ensures evs == PlayEvents(sound, Config())
    {
      evs := [Played(sound)];
      if fadeinT.Some? {
        evs := evs + [FadedIn(sound, fadeinT.value)];
      }
    }

    /** `stop()`: the backend stops, then the fade-out ramp (if configured) starts. */
    method Stop() returns (evs: seq<Event>)
      ensures evs == StopEvents(sound, Config())
    {
      evs := [Stopped(sound)];
      if fadeoutT.Some? {
        evs := evs + [FadedOut(sound, fadeoutT.value)];
      }
    }

    /** `setLoops(mode)`. */
    method SetLoops(mode: LoopMode)
      modifies this`loops
      ensures Config() == old(Config()).(loops := mode)
    {
      loops := mode;
    }

    /** `positionChanged.connect(listener)`: connections accumulate; none is ever removed. */
    method Connect(l: Listener)
      modifies this`listeners
      ensures Config() == old(Config()).(listeners := old(Config()).listeners + [l])
    {
      listeners := listeners + [l];
    }

    /** The backend reports position `pos`: every connected listener runs, in order. */
    method PositionChanged(pos: int) returns (evs: seq<Event>)
      ensures evs == LoopEvents(listeners, pos)
    {
      evs := [];
      var i := 0;
      while i < |listeners|
        invariant 0 <= i <= |listeners|
        invariant evs == LoopEvents(listeners[..i], pos)
      {
        assert listeners[..i + 1][..i] == listeners[..i];
        if pos == 0 {
          evs := evs + [Looped(listeners[i].scene, listeners[i].id)];
        }
        i := i + 1;
      }
      assert listeners[..i] == listeners;
    }
  }

  /** `SoundEngine`. */
  class Engine {
    const dataMap: DataMap
    const startingId: string
    var sounds: map<string, SoundPlayer>
    /** `loop_scenes`: read from `globalOptions` by `Load`, never consulted afterwards. */
    var loopScenes: bool
    /** Whether `scene_id` and `idx` exist yet (Python creates them in `play_scene`). */
    var started: bool
    var sceneId: string
    var idx: nat
    var log: seq<Event>

    /** Each sound id has a player of its own, loaded for that id. */
    ghost predicate Valid()
      reads this`sounds
    {
      forall k :: k in sounds ==> sounds[k].sound == k
    }

    ghost function Players(): map<string, PlayerState>
      reads this`sounds, sounds.Values
    {
      map k | k in sounds :: sounds[k].Config()
    }

    /** The engine's whole state as a value. */
    ghost function Snapshot(): EngineState
      reads this`started, this`sceneId, this`idx, this`log, this`sounds, sounds.Values
    {
      EngineState(if started then Some(Cursor(sceneId, idx)) else None, Players(), log)
    }

    constructor (dataMap: DataMap, startingId: string)
      ensures this.dataMap == dataMap && this.startingId == startingId
      ensures sounds == map[] && !loopScenes && !started && log == []
      ensures Valid()
    {
      this.dataMap := dataMap;
      this.startingId := startingId;
      sounds := map[];
      loopScenes := false;
      started := false;
      sceneId := "";
      idx := 0;
      log := [];
    }

    /**
     * `SoundEngine(data_map, starting_id, load, validate)`: validate (a dry run
     * when `validate` is false), then load the players when `load` is set.
     */
    static method Create(raw: DataMap, startingId: string, load: bool, validate: bool) returns (r: Result<Engine, Fault>)
      ensures validate && Validation.Validate(raw, true).Err? ==> r == Err(DeleteOutOfRange)
      ensures r.Ok? ==> fresh(r.value) && r.value.Valid()
      ensures r.Ok? ==> r.value.dataMap == Validation.Validate(raw, validate).value
      ensures r.Ok? ==> r.value.startingId == startingId && !r.value.started && r.value.log == []
      ensures r.Ok? && load ==> r.value.dataMap.soundIDs.Some? && r.value.sounds.Keys == r.value.dataMap.soundIDs.value.Keys
      ensures r.Ok? && !load ==> r.value.sounds == map[]
      ensures r.Ok? && load ==> forall k :: k in r.value.sounds ==>
        fresh(r.value.sounds[k]) && r.value.sounds[k].source == r.value.dataMap.soundIDs.value[k]
        && r.value.sounds[k].Config() == PlayerState(None, None, Once, [])
      ensures r.Ok? ==> (r.value.loopScenes <==>
        load && r.value.dataMap.globalOptions.Some? && r.value.dataMap.globalOptions.value.loopScenes.GetOr(false))
      ensures !(validate && Validation.Validate(raw, true).Err?) ==>
        (r.Err? <==> load && Validation.Validate(raw, validate).value.soundIDs.None?)
    {
      var checked := Validation.ValidateMapping(raw, validate);
      if checked.Err? {
        return Err(checked.error);
      }
      var engine := new Engine(checked.value.result, startingId);
      if load {
        var out := engine.Load();
        if out.Failed? {
          return Err(out.fault);
        }
      }
      r := Ok(engine);
    }

    /** `load()`: a fresh player per entry of `soundIDs`, then `loop_scenes` from `globalOptions`. */
    method Load() returns (out: Outcome)
      requires Valid()
      modifies this`sounds, this`loopScenes
      ensures Valid()
      ensures out.Failed? <==> dataMap.soundIDs.None?
      ensures out.Failed? ==> out.fault == SoundTableMissing && sounds == old(sounds) && loopScenes == old(loopScenes)
      ensures out.Done? ==> sounds.Keys == old(sounds).Keys + dataMap.soundIDs.value.Keys
      ensures out.Done? ==> forall k :: k in dataMap.soundIDs.value ==>
        fresh(sounds[k]) && sounds[k].sound == k && sounds[k].source == dataMap.soundIDs.value[k]
        && sounds[k].Config() == PlayerState(None, None, Once, [])
      ensures out.Done? ==> forall k :: k in old(sounds) && k !in dataMap.soundIDs.value ==> sounds[k] == old(sounds)[k]
      ensures out.Done? ==> (loopScenes ==
        if dataMap.globalOptions.Some? then dataMap.globalOptions.value.loopScenes.GetOr(false) else old(loopScenes))
    {
      if dataMap.soundIDs.None? {
        return Failed(SoundTableMissing);
      }
      var ids := dataMap.soundIDs.value;
      var players := sounds;
      var pending := ids.Keys;
      while pending != {}
        invariant pending <= ids.Keys
        invariant players.Keys == sounds.Keys + (ids.Keys - pending)
        invariant forall k :: k in players ==> players[k].sound == k
        invariant forall k :: k in ids && k !in pending ==>
          fresh(players[k]) && players[k].source == ids[k] && players[k].Config() == PlayerState(None, None, Once, [])
        invariant forall k :: k in sounds && (k !in ids || k in pending) ==> players[k] == sounds[k]
        modifies {}
        decreases pending
      {
        var id :| id in pending;
        var player := new SoundPlayer(id, ids[id], None, None);
        players := players[id := player];
        pending := pending - {id};
      }
      sounds := players;
      if dataMap.globalOptions.Some? {
        loopScenes := dataMap.globalOptions.value.loopScenes.GetOr(false);
      }
      out := Done;
    }

    /** `get_scene_and_sound()`: the current scene and the `id` of the current entry. */
    function SceneAndSound(): (r: Result<(string, string), Fault>)
      reads this
      ensures r.Ok? <==> started && CueId(dataMap, sceneId, idx).Ok?
      ensures r.Ok? ==> r.value == (sceneId, CueId(dataMap, sceneId, idx).value)
    {
      if !started then Err(NotStarted)
      else match CueId(dataMap, sceneId, idx)
        case Err(f) => Err(f)
        case Ok(id) => Ok((sceneId, id))
    }

    /** `attach_on_loop(scene_id, idx)`. */
    method AttachOnLoop(scene: string, idx: nat) returns (out: Outcome)
      requires Valid()
      modifies sounds.Values
      ensures Run(Snapshot(), out) == AttachRun(dataMap, old(Snapshot()), scene, idx)
    {
      ghost var s0 := Snapshot();
      var soundPayload := Payload(dataMap, scene, idx);
      if soundPayload.Err? {
        return Failed(soundPayload.error);
      }
      var soundId := CueId(dataMap, scene, idx);
      if soundId.Err? {
        return Failed(soundId.error);
      }
      var p := soundPayload.value;
      if p !in sounds {
        return Failed(UnknownSound(p));
      }
      var l := Listener(scene, soundId.value);
      sounds[p].Connect(l);
      ghost var want := s0.players[p].(listeners := s0.players[p].listeners + [l]);
      assert sounds[p].Config() == want;
      assert forall k :: k in sounds && k != p ==> sounds[k].Config() == old(sounds[k].Config());
      assert Players() == s0.players[p := want];
      out := Done;
    }

    /** Hand `evs` to the backend: they are appended to the log and nothing else changes. */
    method EmitEvents(evs: seq<Event>)
      modifies this`log
      ensures Snapshot() == Emit(old(Snapshot()), evs)
    {
      log := log + evs;
    }

    /** `self.sounds[p].fadeoutT = fade` in `check_stop`. */
    method SetFadeout(p: string, fade: Option<int>)
      requires Valid() && p in sounds
      modifies sounds.Values
      ensures Snapshot() == old(Snapshot()).(players := old(Snapshot()).players[p := old(Snapshot()).players[p].(fadeoutT := fade)])
    {
      ghost var s0 := Snapshot();
      sounds[p].fadeoutT := fade;
      assert forall k :: k in sounds && k != p ==> sounds[k].Config() == old(sounds[k].Config());
      assert Players() == s0.players[p := s0.players[p].(fadeoutT := fade)];
    }

    /** `play_sound(scene_id, idx)`. */
    method PlaySound(scene: string, idx: nat) returns (out: Outcome)
      requires Valid()
      modifies this`log, sounds.Values
      ensures Run(Snapshot(), out) == PlaySoundRun(dataMap, old(Snapshot()), scene, idx)
    {
      ghost var s0 := Snapshot();
      var entry := EntryAt(dataMap, scene, idx);
      if entry.Err? {
        return Failed(entry.error);
      }
      var obj := entry.value;
      if obj.payload.None? {
        return Failed(MissingField(PayloadField));
      }
      var p := obj.payload.value;
      if p !in sounds {
        return Failed(UnknownSound(p));
      }
      out := ConfigureLoops(scene, idx, p, obj.loop.Some? && Truthy(obj.loop.value));
      if out.Failed? {
        return;
      }
      ghost var s1 := Snapshot();
      assert s1.players[p] == sounds[p].Config();
      var evs := sounds[p].Play();
      EmitEvents(evs);
    }

    /** The first half of `play_sound`: `setLoops`, and `attach_on_loop` when the entry loops. */
    method ConfigureLoops(scene: string, idx: nat, p: string, looping: bool) returns (out: Outcome)
      requires Valid() && p in sounds
      modifies sounds.Values
      ensures Run(Snapshot(), out) == LoopRun(dataMap, old(Snapshot()), scene, idx, p, looping)
    {
      ghost var s0 := Snapshot();
      sounds[p].SetLoops(if looping then Infinite else Once);
      assert forall k :: k in sounds && k != p ==> sounds[k].Config() == old(sounds[k].Config());
      assert Players() == s0.players[p := s0.players[p].(loops := if looping then Infinite else Once)];
      out := Done;
      if looping {
        out := AttachOnLoop(scene, idx);
      }
    }

    /** `check_stop()`. */
    method CheckStop() returns (out: Outcome)
      requires Valid()
      modifies this`log, sounds.Values
      ensures Run(Snapshot(), out) == CheckStopRun(dataMap, old(Snapshot()))
    {
      ghost var s0 := Snapshot();
      if dataMap.scenes.None? {
        return Failed(ScenesKeyMissing);
      }
      if !started {
        return Failed(NotStarted);
      }
      var entry := EntryAt(dataMap, sceneId, idx);
      if entry.Err? {
        return Failed(entry.error);
      }
      var obj := entry.value;
      if obj.kind.None? {
        return Failed(MissingField(TypeField));
      }
      if !Stoppable(obj) {
        return Done;
      }
      if obj.fadeout.Some? {
        if obj.payload.None? {
          return Failed(MissingField(PayloadField));
        }
        if obj.payload.value !in sounds {
          return Failed(UnknownSound(obj.payload.value));
        }
        SetFadeout(obj.payload.value, obj.fadeout);
      }
      EmitEvents([ClearLoop]);
      out := StopSound(obj.payload);
    }

    /** The end of `check_stop`: stop the entry's player. */
    method StopSound(payload: Option<string>) returns (out: Outcome)
      requires Valid()
      modifies this`log
      ensures Run(Snapshot(), out) == StopRun(old(Snapshot()), payload)
    {
      if payload.None? {
        return Failed(MissingField(PayloadField));
      }
      var p := payload.value;
      if p !in sounds {
        return Failed(UnknownSound(p));
      }
      var evs := sounds[p].Stop();
      EmitEvents(evs);
      out := Done;
    }

    /** `play_obj(scene_id, idx)`. */
    method PlayObj(scene: string, idx: nat, fuel: nat) returns (out: Outcome)
      requires Valid()
      modifies this`started, this`sceneId, this`idx, this`log, sounds.Values
      ensures Run(Snapshot(), out) == PlayObjRun(dataMap, old(Snapshot()), scene, idx, fuel)
      decreases fuel, 0
    {
      ghost var s0 := Snapshot();
      var entry := EntryAt(dataMap, scene, idx);
      if entry.Err? {
        return Failed(entry.error);
      }
      var obj := entry.value;
      if obj.kind.None? {
        return Failed(MissingField(TypeField));
      }
      match obj.kind.value
      case Sound =>
        out := PlaySound(scene, idx);
        if out.Done? && obj.step == Some(true) {
          if fuel == 0 {
            return Failed(RecursionLimit);
          }
          out := Step(fuel - 1);
        }
      case Cue =>
        if obj.payload.None? {
          return Failed(MissingField(PayloadField));
        }
        if fuel == 0 {
          return Failed(RecursionLimit);
        }
        out := PlayScene(obj.payload.value, fuel - 1);
      case Art =>
        if obj.payload.None? {
          return Failed(MissingField(PayloadField));
        }
        EmitEvents([ShowImage(obj.payload.value, obj.scale.GetOr(1.0))]);
        out := Done;
        if obj.step != Some(false) {
          if fuel == 0 {
            return Failed(RecursionLimit);
          }
          out := Step(fuel - 1);
        }
      case Unknown(_) =>
        out := Done;
    }

    /** `play_scene(scene_id)`. */
    method PlayScene(scene: string, fuel: nat) returns (out: Outcome)
      requires Valid()
      modifies this`started, this`sceneId, this`idx, this`log, sounds.Values
      ensures Run(Snapshot(), out) == PlaySceneRun(dataMap, old(Snapshot()), scene, fuel)
      decreases fuel, 1
    {
      ghost var s0 := Snapshot();
      idx := 0;
      sceneId := scene;
      started := true;
      assert Snapshot() == s0.(cursor := Some(Cursor(scene, 0)));
      out := PlayObj(scene, idx, fuel);
    }

    /** `step()`. */
    method Step(fuel: nat) returns (out: Outcome)
      requires Valid()
      modifies this`started, this`sceneId, this`idx, this`log, sounds.Values
      ensures Run(Snapshot(), out) == StepRun(dataMap, old(Snapshot()), fuel)
      decreases fuel, 1
    {
      out := CheckStop();
      if out.Failed? {
        return;
      }
      ghost var s1 := Snapshot();
      idx := idx + 1;
      assert Snapshot() == s1.(cursor := Some(Cursor(sceneId, idx)));
      out := PlayObj(sceneId, idx, fuel);
    }

    /** `start()`: play the starting scene. */
    method Start(fuel: nat) returns (out: Outcome)
      requires Valid()
      modifies this`started, this`sceneId, this`idx, this`log, sounds.Values
      ensures Run(Snapshot(), out) == PlaySceneRun(dataMap, old(Snapshot()), startingId, fuel)
    {
      out := PlayScene(startingId, fuel);
    }

    /**
     * The backend reports that sound `sound` reached position `pos`: its
     * listeners run and the engine emits what they report.
     */
    method PositionChanged(sound: string, pos: int) returns (out: Outcome)
      modifies this`log
      ensures sound in sounds ==> out == Done && log == old(log) + LoopEvents(sounds[sound].listeners, pos)
      ensures sound !in sounds ==> out == Failed(UnknownSound(sound)) && log == old(log)
    {
      if sound !in sounds {
        return Failed(UnknownSound(sound));
      }
      var evs := sounds[sound].PositionChanged(pos);
      log := log + evs;
      out := Done;
    }
  }
}
