/**
 * The older scene sequencer (`SoundEngine` of
 * dnd_sound_engine/sounds/sound_engine.py), built on pygame's mixer. It keeps
 * the channel each played entry got in a dictionary keyed by
 * `(scene_id, idx)`: `play_sound` inserts, `check_stop` stops (or fades) and
 * deletes. It knows only `sound` and `cue`; nothing steps on its own.
 *
 * The mixer is replaced by an event log; the channel `Sound.play()` hands out
 * is represented by the entry it was started for.
 */
module LegacySequencer {
  import opened Wrappers
  import opened ScriptData
  import Validation

  /** `(scene_id, idx)`: the key of `channels`. */
  type Key = (string, nat)

  /** The channel the mixer gave to the playback of `sound` for the entry at `key`. */
  datatype Channel = Channel(sound: string, key: Key)

  datatype Event =
    | Played(ch: Channel)
    | Stopped(ch: Channel)
    | FadedOut(ch: Channel, ms: int)

  datatype EngineState = EngineState(cursor: Option<Cursor>, channels: map<Key, Channel>, log: seq<Event>)

  /** `play_sound(scene_id, idx)`: play the entry's sound and remember its channel under `(scene_id, idx)`. */
  function PlaySoundRun(dm: DataMap, loaded: set<string>, st: EngineState, scene: string, idx: nat): (r: Run<EngineState>)
    ensures r.state.cursor == st.cursor
    ensures r.outcome.Done? <==> Payload(dm, scene, idx).Ok? && Payload(dm, scene, idx).value in loaded
    ensures r.outcome.Done? ==> r.state.channels.Keys == st.channels.Keys + {(scene, idx)}
    ensures r.outcome.Done? ==> forall k :: k in st.channels && k != (scene, idx) ==> r.state.channels[k] == st.channels[k]
    ensures r.outcome.Failed? ==> r.state == st
  {
    match EntryAt(dm, scene, idx)
    case Err(f) => Run(st, Failed(f))
    case Ok(obj) =>
      if obj.payload.None? then Run(st, Failed(MissingField(PayloadField)))
      else if obj.payload.value !in loaded then Run(st, Failed(UnknownSound(obj.payload.value)))
      else
        var ch := Channel(obj.payload.value, (scene, idx));
        Run(EngineState(st.cursor, st.channels[(scene, idx) := ch], st.log + [Played(ch)]), Done)
  }

  /** Whether `check_stop` stops an entry: a sound whose `retain` is not true. */
  predicate Stoppable(obj: Entry) {
    obj.kind == Some(Sound) && obj.retain != Some(true)
  }

  /**
   * `check_stop()`: a non-retained sound's channel is faded out (when the
   * entry has `fadeout`) or stopped, and its key is deleted. The channel is
   * looked up without a guard.
   */
  function CheckStopRun(dm: DataMap, st: EngineState): (r: Run<EngineState>)
    ensures r.state.cursor == st.cursor
    ensures st.log <= r.state.log && |r.state.log| <= |st.log| + 1
    ensures forall k :: |st.log| <= k < |r.state.log| ==> !r.state.log[k].Played?
    ensures r.outcome.Done? ==> st.cursor.Some?
    ensures r.outcome.Failed? ==> r.state == st
  {
    if dm.scenes.None? then Run(st, Failed(ScenesKeyMissing))
    else if st.cursor.None? then Run(st, Failed(NotStarted))
    else
      var c := st.cursor.value;
      match EntryAt(dm, c.scene, c.idx)
      case Err(f) => Run(st, Failed(f))
      case Ok(obj) =>
        if obj.kind.None? then Run(st, Failed(MissingField(TypeField)))
        else if !Stoppable(obj) then Run(st, Done)
        else if (c.scene, c.idx) !in st.channels then Run(st, Failed(NoChannel(c.scene, c.idx)))
        else
          var ch := st.channels[(c.scene, c.idx)];
          var ev := if obj.fadeout.Some? then FadedOut(ch, obj.fadeout.value) else Stopped(ch);
          Run(EngineState(st.cursor, st.channels - {(c.scene, c.idx)}, st.log + [ev]), Done)
  }

  /** The events one `step` appends: at most one stop or fade-out, then at most one play. */
  predicate StopThenPlay(evs: seq<Event>) {
    && |evs| <= 2
    && (forall k :: 0 <= k < |evs| - 1 ==> !evs[k].Played?)
    && (forall k :: 0 < k < |evs| ==> evs[k].Played?)
  }

  /** `play_obj(scene_id, idx)`: `sound` plays, `cue` jumps, anything else is logged and ignored. */
  function PlayObjRun(dm: DataMap, loaded: set<string>, st: EngineState, scene: string, idx: nat, fuel: nat): (r: Run<EngineState>)
    ensures st.log <= r.state.log && |r.state.log| <= |st.log| + 1
    ensures forall k :: |st.log| <= k < |r.state.log| ==> r.state.log[k].Played?
    ensures st.channels.Keys <= r.state.channels.Keys
    ensures r.outcome.Failed? ==> r.state.log == st.log && r.state.channels == st.channels
    decreases fuel, 0
  {
    match EntryAt(dm, scene, idx)
    case Err(f) => Run(st, Failed(f))
    case Ok(obj) =>
      match obj.kind
      case None => Run(st, Failed(MissingField(TypeField)))
      case Some(Sound) => PlaySoundRun(dm, loaded, st, scene, idx)
      case Some(Cue) =>
        if obj.payload.None? then Run(st, Failed(MissingField(PayloadField)))
        else if fuel == 0 then Run(st, Failed(RecursionLimit))
        else PlaySceneRun(dm, loaded, st, obj.payload.value, fuel - 1)
      case Some(_) => Run(st, Done)
  }

  /** `play_scene(scene_id)`: move to index 0 of the scene, then dispatch. */
  function PlaySceneRun(dm: DataMap, loaded: set<string>, st: EngineState, scene: string, fuel: nat): (r: Run<EngineState>)
    ensures st.log <= r.state.log && |r.state.log| <= |st.log| + 1
    ensures forall k :: |st.log| <= k < |r.state.log| ==> r.state.log[k].Played?
    ensures st.channels.Keys <= r.state.channels.Keys
    ensures r.outcome.Failed? ==> r.state.log == st.log && r.state.channels == st.channels
    ensures r.state.cursor.Some?
    decreases fuel, 1
  {
    PlayObjRun(dm, loaded, st.(cursor := Some(Cursor(scene, 0))), scene, 0, fuel)
  }

  /** `step()`: `check_stop`, then `idx += 1`, then dispatch in the same scene. */
  function StepRun(dm: DataMap, loaded: set<string>, st: EngineState, fuel: nat): (r: Run<EngineState>)
    ensures st.log <= r.state.log && StopThenPlay(r.state.log[|st.log|..])
    ensures r.outcome.Done? ==> st.cursor.Some?
  {
    var r := CheckStopRun(dm, st);
    if r.outcome.Failed? then r
    else
      var c := st.cursor.value;
      PlayObjRun(dm, loaded, r.state.(cursor := Some(Cursor(c.scene, c.idx + 1))), c.scene, c.idx + 1, fuel)
  }

  /** `SoundEngine`. */
  class Engine {
    const dataMap: DataMap
    const startingId: string
    /** `sounds`: the loaded sound per short-hand id (its file name stands for the mixer's `Sound`). */
    var sounds: map<string, string>
    var channels: map<Key, Channel>
    var started: bool
    var sceneId: string
    var idx: nat
    var log: seq<Event>

    function Snapshot(): EngineState
      reads this
    {
      EngineState(if started then Some(Cursor(sceneId, idx)) else None, channels, log)
    }

    constructor (dataMap: DataMap, startingId: string)
      ensures this.dataMap == dataMap && this.startingId == startingId
      ensures sounds == map[] && Snapshot() == EngineState(None, map[], [])
    {
      this.dataMap := dataMap;
      this.startingId := startingId;
      sounds := map[];
      channels := map[];
      started := false;
      sceneId := "";
      idx := 0;
      log := [];
    }

    /**
     * `SoundEngine(data_map, starting_id, load, validate)`: the validated copy
     * when `validate` is set, otherwise the map as given; then `load()` if asked.
     */
    static method Create(raw: DataMap, startingId: string, load: bool, validate: bool) returns (r: Result<Engine, Fault>)
      ensures validate && Validation.Validate(raw, true).Err? ==> r == Err(DeleteOutOfRange)
      ensures r.Ok? ==> fresh(r.value)
      ensures r.Ok? ==> r.value.dataMap == if validate then Validation.Validate(raw, true).value else raw
      ensures r.Ok? ==> r.value.startingId == startingId && r.value.Snapshot() == EngineState(None, map[], [])
      ensures r.Ok? && load ==> r.value.dataMap.shortHands.Some? && r.value.sounds == r.value.dataMap.shortHands.value
      ensures r.Ok? && !load ==> r.value.sounds == map[]
      ensures !(validate && Validation.Validate(raw, true).Err?) ==>
        (r.Err? <==> load && (if validate then Validation.Validate(raw, true).value else raw).shortHands.None?)
    {
      var dm := raw;
      if validate {
        var checked := Validation.ValidateMapping(raw, true);
        if checked.Err? {
          return Err(checked.error);
        }
        dm := checked.value.result;
      }
      var engine := new Engine(dm, startingId);
      if load {
        var out := engine.Load();
        if out.Failed? {
          return Err(out.fault);
        }
      }
      r := Ok(engine);
    }

    /** `load()`: one sound per entry of `shortHands`, under the same key. */
    method Load() returns (out: Outcome)
      modifies this`sounds
      ensures out.Failed? <==> dataMap.shortHands.None?
      ensures out.Failed? ==> out.fault == SoundTableMissing && sounds == old(sounds)
      ensures out.Done? ==> sounds.Keys == old(sounds).Keys + dataMap.shortHands.value.Keys
      ensures out.Done? ==> forall k :: k in dataMap.shortHands.value ==> sounds[k] == dataMap.shortHands.value[k]
      ensures out.Done? ==> forall k :: k in old(sounds) && k !in dataMap.shortHands.value ==> sounds[k] == old(sounds)[k]
    {
      if dataMap.shortHands.None? {
        return Failed(SoundTableMissing);
      }
      var table := dataMap.shortHands.value;
      var pending := table.Keys;
      while pending != {}
        invariant pending <= table.Keys
        invariant sounds.Keys == old(sounds).Keys + (table.Keys - pending)
        invariant forall k :: k in table && k !in pending ==> sounds[k] == table[k]
        invariant forall k :: k in old(sounds) && (k !in table || k in pending) ==> sounds[k] == old(sounds)[k]
        decreases pending
      {
        var id :| id in pending;
        sounds := sounds[id := table[id]];
        pending := pending - {id};
      }
      out := Done;
    }

    /** `play_sound(scene_id, idx)`. */
    method PlaySound(scene: string, idx: nat) returns (out: Outcome)
      modifies this`channels, this`log
      ensures Run(Snapshot(), out) == PlaySoundRun(dataMap, sounds.Keys, old(Snapshot()), scene, idx)
    {
      var entry := EntryAt(dataMap, scene, idx);
      if entry.Err? {
        return Failed(entry.error);
      }
      var obj := entry.value;
      if obj.payload.None? {
        return Failed(MissingField(PayloadField));
      }
      if obj.payload.value !in sounds {
        return Failed(UnknownSound(obj.payload.value));
      }
      var ch := Channel(obj.payload.value, (scene, idx));
      log := log + [Played(ch)];
      channels := channels[(scene, idx) := ch];
      out := Done;
    }

    /** `check_stop()`. */
    method CheckStop() returns (out: Outcome)
      modifies this`channels, this`log
      ensures Run(Snapshot(), out) == CheckStopRun(dataMap, old(Snapshot()))
    {
      if dataMap.scenes.None? {
        return Failed(ScenesKeyMissing);
      }
      if !started {
        return Failed(NotStarted);
      }
      var entry := EntryAt(dataMap, sceneId, idx);
      if entry.Err? {
        return Failed(entry.error);
      }
      var obj := entry.value;
      if obj.kind.None? {
        return Failed(MissingField(TypeField));
      }
      if Stoppable(obj) {
        if (sceneId, idx) !in channels {
          return Failed(NoChannel(sceneId, idx));
        }
        var ch := channels[(sceneId, idx)];
        if obj.fadeout.Some? {
          log := log + [FadedOut(ch, obj.fadeout.value)];
        } else {
          log := log + [Stopped(ch)];
        }
        channels := channels - {(sceneId, idx)};
      }
      out := Done;
    }

    /** `play_obj(scene_id, idx)`. */
    method PlayObj(scene: string, idx: nat, fuel: nat) returns (out: Outcome)
      modifies this`started, this`sceneId, this`idx, this`channels, this`log
      ensures Run(Snapshot(), out) == PlayObjRun(dataMap, sounds.Keys, old(Snapshot()), scene, idx, fuel)
      decreases fuel, 0
    {
      var entry := EntryAt(dataMap, scene, idx);
      if entry.Err? {
        return Failed(entry.error);
      }
      var obj := entry.value;
      if obj.kind.None? {
        return Failed(MissingField(TypeField));
      }
      match obj.kind.value
      case Sound =>
        out := PlaySound(scene, idx);
      case Cue =>
        if obj.payload.None? {
          return Failed(MissingField(PayloadField));
        }
        if fuel == 0 {
          return Failed(RecursionLimit);
        }
        out := PlayScene(obj.payload.value, fuel - 1);
      case _ =>
        out := Done;
    }

    /** `play_scene(scene_id)`. */
    method PlayScene(scene: string, fuel: nat) returns (out: Outcome)
      modifies this`started, this`sceneId, this`idx, this`channels, this`log
      ensures Run(Snapshot(), out) == PlaySceneRun(dataMap, sounds.Keys, old(Snapshot()), scene, fuel)
      decreases fuel, 1
    {
      idx := 0;
      sceneId := scene;
      started := true;
      out := PlayObj(scene, idx, fuel);
    }

    /** `step()`. */
    method Step(fuel: nat) returns (out: Outcome)
      modifies this`started, this`sceneId, this`idx, this`channels, this`log
      ensures Run(Snapshot(), out) == StepRun(dataMap, sounds.Keys, old(Snapshot()), fuel)
    {
      out := CheckStop();
      if out.Failed? {
        return;
      }
      idx := idx + 1;
      out := PlayObj(sceneId, idx, fuel);
    }

    /** `start()`: play the starting scene. */
    method Start(fuel: nat) returns (out: Outcome)
      modifies this`started, this`sceneId, this`idx, this`channels, this`log
      ensures Run(Snapshot(), out) == PlaySceneRun(dataMap, sounds.Keys, old(Snapshot()), startingId, fuel)
    {
      out := PlayScene(startingId, fuel);
    }
  }
}
