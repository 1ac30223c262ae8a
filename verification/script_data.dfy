/**
 * The scene script as the engines hold it at run time: the dictionary parsed
 * from `map.json`. Every key of a scene entry may be missing, and `loop`
 * holds a boolean, an integer, a string or null; this is the shape
 * `validate_mapping` checks and the shape both sequencers index into.
 */
module ScriptData {
  import opened Wrappers

  /**
   * The value of an entry's `type` key. Any tag other than the three known
   * ones is `Unknown`; an `Unknown` never carries one of the three known tags
   * (see `WellTagged`), since `KindOf` reads those as their own constructors.
   */
  datatype Kind = Sound | Cue | Art | Unknown(tag: string)

  /** The string the `type` key holds for a kind. */
  function Tag(k: Kind): string {
    match k
    case Sound => "sound"
    case Cue => "cue"
    case Art => "art"
    case Unknown(t) => t
  }

  /** A kind as `KindOf` produces it: `Unknown` only for a tag the `match` does not name. */
  predicate WellTagged(k: Kind) {
    k.Unknown? ==> k.tag !in {"sound", "cue", "art"}
  }

  /** The `match scene_obj["type"]` of `play_obj`: the three named cases, then the catch-all. */
  function KindOf(tag: string): (k: Kind)
    ensures WellTagged(k) && Tag(k) == tag
  {
    if tag == "sound" then Sound
    else if tag == "cue" then Cue
    else if tag == "art" then Art
    else Unknown(tag)
  }

  /** Every well-tagged kind is what `KindOf` reads from its own tag. */
  lemma KindOfTag(k: Kind)
    requires WellTagged(k)
    ensures KindOf(Tag(k)) == k
  {
  }

  /** A JSON scalar: the values a `loop` key can hold. */
  datatype Value = Bool(b: bool) | Int(i: int) | Str(s: string) | Null

  /** Python truthiness of a scalar, as `if scene_obj.get("loop", False):` reads it. */
  predicate Truthy(v: Value) {
    match v
    case Bool(b) => b
    case Int(i) => i != 0
    case Str(s) => s != ""
    case Null => false
  }

  /** One scene entry, as a dictionary whose keys may each be absent. */
  datatype Entry = Entry(
    kind: Option<Kind>,
    id: Option<string>,
    payload: Option<string>,
    loop: Option<Value>,
    step: Option<bool>,
    retain: Option<bool>,
    fadeout: Option<int>,
    scale: Option<real>)

  /** Scene id to its ordered list of entries. */
  type Scenes = map<string, seq<Entry>>

  /** The `globalOptions` record. */
  datatype Options = Options(loopScenes: Option<bool>)

  /**
   * The top-level dictionary. `soundIDs`, `artIDs` and `globalOptions` are the
   * newer engine's keys, `shortHands` the older engine's; `root` is always set
   * by the loader.
   */
  datatype DataMap = DataMap(
    scenes: Option<Scenes>,
    soundIDs: Option<map<string, string>>,
    artIDs: Option<map<string, string>>,
    shortHands: Option<map<string, string>>,
    root: string,
    globalOptions: Option<Options>)

  /** The entry keys whose absence makes a lookup raise `KeyError`. */
  datatype Field = TypeField | IdField | PayloadField

  /** The exceptions the core can raise, as values. */
  datatype Fault =
    | ScenesKeyMissing                        // data_map["scenes"] on a map without it
    | UnknownScene(scene: string)             // data_map["scenes"][scene_id]
    | IndexOutOfRange(scene: string, idx: nat) // scene_data[idx] past the end
    | MissingField(field: Field)              // scene_obj["type"], ["id"] or ["payload"]
    | UnknownSound(sound: string)             // self.sounds[payload]
    | SoundTableMissing                       // data_map["soundIDs"] / ["shortHands"] absent
    | NotStarted                              // self.scene_id read before play_scene set it
    | RecursionLimit                          // the Python stack is exhausted
    | NoChannel(scene: string, idx: nat)      // self.channels[(scene_id, idx)] absent
    | DeleteOutOfRange                        // `del` past the end of a shrinking scene copy

  /** How a sequencer call ends: normally, or by raising. */
  datatype Outcome = Done | Failed(fault: Fault)

  /** The current position of a sequencer: `(scene_id, idx)`. */
  datatype Cursor = Cursor(scene: string, idx: nat)

  /** The state a sequencer call leaves behind, with how it ended. */
  datatype Run<S> = Run(state: S, outcome: Outcome)

  /** `data_map["scenes"][scene][idx]`, with the lookup errors it can raise. */
  function EntryAt(dm: DataMap, scene: string, idx: nat): (r: Result<Entry, Fault>)
    ensures r.Ok? <==> dm.scenes.Some? && scene in dm.scenes.value && idx < |dm.scenes.value[scene]|
    ensures r.Ok? ==> r.value == dm.scenes.value[scene][idx]
    ensures r.Err? && dm.scenes.Some? && scene in dm.scenes.value ==> r.error == IndexOutOfRange(scene, idx)
  {
    if dm.scenes.None? then Err(ScenesKeyMissing)
    else if scene !in dm.scenes.value then Err(UnknownScene(scene))
    else if idx >= |dm.scenes.value[scene]| then Err(IndexOutOfRange(scene, idx))
    else Ok(dm.scenes.value[scene][idx])
  }

  /** `get_cue_id`: the `id` of the entry at `(scene, idx)`. */
  function CueId(dm: DataMap, scene: string, idx: nat): (r: Result<string, Fault>)
    ensures r.Ok? <==> EntryAt(dm, scene, idx).Ok? && EntryAt(dm, scene, idx).value.id.Some?
    ensures r.Ok? ==> Some(r.value) == dm.scenes.value[scene][idx].id
  {
    match EntryAt(dm, scene, idx)
    case Err(f) => Err(f)
    case Ok(e) => if e.id.Some? then Ok(e.id.value) else Err(MissingField(IdField))
  }

  /** `get_payload`: the `payload` of the entry at `(scene, idx)`. */
  function Payload(dm: DataMap, scene: string, idx: nat): (r: Result<string, Fault>)
    ensures r.Ok? <==> EntryAt(dm, scene, idx).Ok? && EntryAt(dm, scene, idx).value.payload.Some?
    ensures r.Ok? ==> Some(r.value) == dm.scenes.value[scene][idx].payload
  {
    match EntryAt(dm, scene, idx)
    case Err(f) => Err(f)
    case Ok(e) => if e.payload.Some? then Ok(e.payload.value) else Err(MissingField(PayloadField))
  }
}
