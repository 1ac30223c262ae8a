/**
 * The declared shapes of the older engine's scene script (the TypedDicts of
 * dnd_sound_engine/sounds/types.py): sound and cue entries only, and a
 * `shortHands` table in place of `soundIDs`/`artIDs`.
 */
module LegacyTypes {
  import opened Wrappers
  import SD = ScriptData
  import V = Validation

  /** `_ImplementedObjTypes`: only sound and cue. */
  datatype ObjType = Sound | Cue

  /** `SceneObject`: `type`, `id`, `payload`, and an optional boolean `loop`. */
  datatype SceneObject = SceneObject(kind: ObjType, id: string, payload: string, loop: Option<bool>)

  /** `ScenesData`. */
  type ScenesData = map<string, seq<SceneObject>>

  /** `ObjectMap`. */
  datatype ObjectMap = ObjectMap(shortHands: map<string, string>, scenes: ScenesData, root: string)

  /** The dictionary a declared object is at run time. */
  function ToEntry(o: SceneObject): (e: SD.Entry)
    ensures e.kind == Some(if o.kind == Sound then SD.Sound else SD.Cue)
    ensures e.id == Some(o.id) && e.payload == Some(o.payload)
    ensures e.step.None? && e.retain.None? && e.fadeout.None? && e.scale.None?
    ensures e.loop == if o.loop.Some? then Some(SD.Bool(o.loop.value)) else None
  {
    SD.Entry(Some(if o.kind == Sound then SD.Sound else SD.Cue), Some(o.id), Some(o.payload),
      if o.loop.Some? then Some(SD.Bool(o.loop.value)) else None,
      None, None, None, None)
  }

  /** The declared object a dictionary is, if it has exactly the declared shape. */
  function FromEntry(e: SD.Entry): (r: Option<SceneObject>)
    ensures r.Some? ==> !V.Flagged(e)
  {
    if e.kind.None? || e.id.None? || e.payload.None? then None
    else if e.step.Some? || e.retain.Some? || e.fadeout.Some? || e.scale.Some? then None
    else if e.loop.Some? && !e.loop.value.Bool? then None
    else
      var loop := if e.loop.Some? then Some(e.loop.value.b) else None;
      match e.kind.value
      case Sound => Some(SceneObject(Sound, e.id.value, e.payload.value, loop))
      case Cue => Some(SceneObject(Cue, e.id.value, e.payload.value, loop))
      case _ => None
  }

  /** The run-time dictionary of a declared map. */
  function ToDataMap(m: ObjectMap): (dm: SD.DataMap)
    ensures dm.scenes.Some? && dm.scenes.value.Keys == m.scenes.Keys
    ensures dm.shortHands == Some(m.shortHands)
    ensures forall s :: s in m.scenes ==> |dm.scenes.value[s]| == |m.scenes[s]|
    ensures forall s, j :: s in m.scenes && 0 <= j < |m.scenes[s]| ==> dm.scenes.value[s][j] == ToEntry(m.scenes[s][j])
    ensures dm.root == m.root
  {
    SD.DataMap(
      Some(map s | s in m.scenes :: seq(|m.scenes[s]|, j requires 0 <= j < |m.scenes[s]| => ToEntry(m.scenes[s][j]))),
      None, None, Some(m.shortHands), m.root, None)
  }

  /** Reading back the dictionary of a declared object gives the object. */
  lemma EntryRoundTrip(o: SceneObject)
    ensures FromEntry(ToEntry(o)) == Some(o)
  {
  }

  /** A dictionary that reads as a declared object is exactly that object's dictionary. */
  lemma EntryConforms(e: SD.Entry, o: SceneObject)
    requires FromEntry(e) == Some(o)
    ensures ToEntry(o) == e
  {
  }

  /** An `art` entry is not an older-engine object, though validation keeps it. */
  lemma ArtIsNotDeclared(e: SD.Entry)
    requires e.kind == Some(SD.Art) && e.id.Some? && e.payload.Some? && e.loop.None?
    ensures FromEntry(e).None? && !V.Flagged(e)
  {
  }

  /** A declared map passes validation unchanged, with no error key recorded. */
  lemma DeclaredMapValidates(m: ObjectMap)
    ensures V.Validate(ToDataMap(m), true) == Ok(ToDataMap(m))
    ensures forall k :: !V.Reported(ToDataMap(m), k)
  {
    var dm := ToDataMap(m);
    forall s, j | s in dm.scenes.value && 0 <= j < |dm.scenes.value[s]|
      ensures !V.Flagged(dm.scenes.value[s][j])
    {
      assert dm.scenes.value[s][j] == ToEntry(m.scenes[s][j]);
    }
    V.ValidateWellFormed(dm);
  }
}
