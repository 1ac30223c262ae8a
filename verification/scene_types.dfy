/**
 * The declared shapes of the newer engine's scene script (the TypedDicts of
 * sound_r/sounds/types.py), their embedding into the run-time dictionary,
 * and what validation makes of a script that has the declared shape.
 */
module SceneTypes {
  import opened Wrappers
  import SD = ScriptData
  import V = Validation

  /** `_ImplementedObjTypes`: the three tags the sequencer implements. */
  datatype ObjType = Sound | Cue | Art

  /** `SceneObject`: `type`, `id` and `payload` are required; `loop`, `step` and `scale` optional. */
  datatype SceneObject = SceneObject(
    kind: ObjType,
    id: string,
    payload: string,
    loop: Option<bool>,
    step: Option<bool>,
    scale: Option<real>)

  /** `ScenesData`: a scene id maps to its ordered entries. */
  type ScenesData = map<string, seq<SceneObject>>

  /** `GlobalOptions`. */
  datatype GlobalOptions = GlobalOptions(loopScenes: Option<bool>)

  /** `ObjectMap`. */
  datatype ObjectMap = ObjectMap(
    soundIDs: map<string, string>,
    artIDs: map<string, string>,
    scenes: ScenesData,
    root: string,
    globalOptions: Option<GlobalOptions>)

  /** The tag value a declared kind is written as. */
  function ToKind(t: ObjType): SD.Kind {
    match t
    case Sound => SD.Sound
    case Cue => SD.Cue
    case Art => SD.Art
  }

  /** Whether an object auto-advances after dispatch: `step` defaults to false for sound, true for art. */
  predicate AutoSteps(o: SceneObject) {
    match o.kind
    case Sound => o.step == Some(true)
    case Art => o.step != Some(false)
    case Cue => false
  }

  /** The dictionary a declared object is at run time. */
  function ToEntry(o: SceneObject): (e: SD.Entry)
    ensures e.kind == Some(ToKind(o.kind)) && e.id == Some(o.id) && e.payload == Some(o.payload)
    ensures e.retain.None? && e.fadeout.None?
    ensures e.loop == if o.loop.Some? then Some(SD.Bool(o.loop.value)) else None
    ensures e.step == o.step && e.scale == o.scale
  {
    SD.Entry(Some(ToKind(o.kind)), Some(o.id), Some(o.payload),
      if o.loop.Some? then Some(SD.Bool(o.loop.value)) else None,
      o.step, None, None, o.scale)
  }

  /** The declared object a dictionary is, if it has exactly the declared shape. */
  function FromEntry(e: SD.Entry): (r: Option<SceneObject>)
    ensures r.Some? ==> !V.Flagged(e)
  {
    if e.kind.None? || e.id.None? || e.payload.None? || e.retain.Some? || e.fadeout.Some? then None
    else if e.loop.Some? && !e.loop.value.Bool? then None
    else
      var loop := if e.loop.Some? then Some(e.loop.value.b) else None;
      match e.kind.value
      case Sound => Some(SceneObject(Sound, e.id.value, e.payload.value, loop, e.step, e.scale))
      case Cue => Some(SceneObject(Cue, e.id.value, e.payload.value, loop, e.step, e.scale))
      case Art => Some(SceneObject(Art, e.id.value, e.payload.value, loop, e.step, e.scale))
      case Unknown(_) => None
  }

  /** The run-time dictionary of a declared map. */
  function ToDataMap(m: ObjectMap): (dm: SD.DataMap)
    ensures dm.scenes.Some? && dm.scenes.value.Keys == m.scenes.Keys
    ensures forall s :: s in m.scenes ==> |dm.scenes.value[s]| == |m.scenes[s]|
    ensures forall s, j :: s in m.scenes && 0 <= j < |m.scenes[s]| ==> dm.scenes.value[s][j] == ToEntry(m.scenes[s][j])
    ensures dm.soundIDs == Some(m.soundIDs) && dm.artIDs == Some(m.artIDs) && dm.root == m.root
    ensures dm.globalOptions.Some? <==> m.globalOptions.Some?
    ensures m.globalOptions.Some? ==> dm.globalOptions.value.loopScenes == m.globalOptions.value.loopScenes
  {
    SD.DataMap(
      Some(map s | s in m.scenes :: seq(|m.scenes[s]|, j requires 0 <= j < |m.scenes[s]| => ToEntry(m.scenes[s][j]))),
      Some(m.soundIDs), Some(m.artIDs), None, m.root,
      if m.globalOptions.Some? then Some(SD.Options(m.globalOptions.value.loopScenes)) else None)
  }

  /** Reading back the dictionary of a declared object gives the object. */
  lemma EntryRoundTrip(o: SceneObject)
    ensures FromEntry(ToEntry(o)) == Some(o)
  {
  }

  /** A dictionary that reads as a declared object is exactly that object's dictionary. */
  lemma EntryConforms(e: SD.Entry, o: SceneObject)
    requires FromEntry(e) == Some(o)
    ensures ToEntry(o) == e
  {
  }

  /** No check of `validate_mapping` fails on a declared object. */
  lemma DeclaredNeverFlagged(o: SceneObject)
    ensures !V.Flagged(ToEntry(o)) && forall c :: !V.Fails(ToEntry(o), c)
  {
  }

  /** A declared map passes validation unchanged, with no error key recorded. */
  lemma DeclaredMapValidates(m: ObjectMap)
    ensures V.Validate(ToDataMap(m), true) == Ok(ToDataMap(m))
    ensures forall k :: !V.Reported(ToDataMap(m), k)
  {
    var dm := ToDataMap(m);
    forall s, j | s in dm.scenes.value && 0 <= j < |dm.scenes.value[s]|
      ensures !V.Flagged(dm.scenes.value[s][j])
    {
      DeclaredNeverFlagged(m.scenes[s][j]);
    }
    V.ValidateWellFormed(dm);
  }
}
