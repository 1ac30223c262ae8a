/**
 * `validate_mapping`, which the repository carries three times with the same
 * text (sound_r/sounds/sound_engine.py, dnd_sound_engine/sounds/sound_engine.py
 * and dnd_sound_engine/sound_engine.py). It checks every entry of every scene
 * for `type`, `id`, `payload` and a boolean `loop`, records one error key per
 * failed check, and deletes flagged entries from a deep copy of the map.
 *
 * The deletion is modelled as written: it uses the entry's index in the
 * ORIGINAL list (`enumerate(scene_data)`) against the copy's list, which has
 * already lost the entries deleted before it. With two or more flagged
 * entries in one scene the wrong entry can go, or the `del` can run past the
 * end of the copy and raise `IndexError`.
 */
module Validation {
  import opened Wrappers
  import opened ScriptData

  /** The four checks, in the order the source applies them. */
  datatype Check = NoType | NoId | NoPayload | LoopBadType

  /**
   * A key of the `errors` dictionary: `scenes_missing`, or
   * `scenes_<scene>_<i>_<check>` for entry `i` of `scene`.
   */
  datatype ErrorKey = ScenesMissing | EntryError(scene: string, index: nat, check: Check)

  /** What one call returns (the map) and what it logs (the error keys). */
  datatype Report = Report(result: DataMap, errors: set<ErrorKey>)

  /** Whether check `c` fails on entry `e`. Only presence is checked, never the `type` tag itself. */
  predicate Fails(e: Entry, c: Check) {
    match c
    case NoType => e.kind.None?
    case NoId => e.id.None?
    case NoPayload => e.payload.None?
    case LoopBadType => e.loop.Some? && !e.loop.value.Bool?
  }

  /** `remove_key`: at least one of the four checks fails. */
  predicate Flagged(e: Entry) {
    e.kind.None? || e.id.None? || e.payload.None? || (e.loop.Some? && !e.loop.value.Bool?)
  }

  /** Whether the `errors` dictionary of a run on `dm` gets key `k`. */
  predicate Reported(dm: DataMap, k: ErrorKey) {
    match k
    case ScenesMissing => dm.scenes.None?
    case EntryError(s, i, c) =>
      dm.scenes.Some? && s in dm.scenes.value && i < |dm.scenes.value[s]| && Fails(dm.scenes.value[s][i], c)
  }

  /** `del xs[i]`. */
  function Delete(xs: seq<Entry>, i: nat): (r: seq<Entry>)
    requires i < |xs|
    ensures |r| == |xs| - 1
    ensures forall j :: 0 <= j < i ==> r[j] == xs[j]
    ensures forall j :: i <= j < |r| ==> r[j] == xs[j + 1]
  {
    xs[..i] + xs[i + 1..]
  }

  /** The number of flagged entries. */
  function FlaggedCount(xs: seq<Entry>): nat {
    if xs == [] then 0 else (if Flagged(xs[0]) then 1 else 0) + FlaggedCount(xs[1..])
  }

  /**
   * The deletion pass over one scene from position `i` on: `orig` is the list
   * being enumerated, `copy` the copy's list as earlier deletions left it.
   * `None` is the `IndexError` of a `del` past the end of the copy.
   */
  function PruneFrom(orig: seq<Entry>, copy: seq<Entry>, i: nat): (r: Option<seq<Entry>>)
    requires i <= |orig|
    ensures r.Some? ==> |r.value| == |copy| - FlaggedCount(orig[i..])
    ensures r.Some? ==> multiset(r.value) <= multiset(copy)
    decreases |orig| - i
  {
    if i == |orig| then
      Some(copy)
    else
      assert orig[i..][1..] == orig[i + 1..];
      if !Flagged(orig[i]) then
        PruneFrom(orig, copy, i + 1)
      else if i < |copy| then
        assert copy == copy[..i] + [copy[i]] + copy[i + 1..];
        PruneFrom(orig, Delete(copy, i), i + 1)
      else
        None
  }

  /** The whole pass over one scene, starting from an unmodified copy. */
  function Prune(scene: seq<Entry>): (r: Option<seq<Entry>>)
    ensures r.Some? ==> multiset(r.value) <= multiset(scene)
  {
    PruneFrom(scene, scene, 0)
  }

  /** Whether every scene's deletion pass completes without `IndexError`. */
  predicate PrunesCleanly(scenes: Scenes) {
    forall s :: s in scenes ==> Prune(scenes[s]).Some?
  }

  /**
   * The map `validate_mapping(dm, update_map)` returns, or the `IndexError`
   * it raises. With `update_map` false nothing is deleted and the argument
   * itself comes back; without a `scenes` key the copy is returned as it was.
   */
  function Validate(dm: DataMap, updateMap: bool): (r: Result<DataMap, Fault>)
    ensures r.Ok? ==> r.value.(scenes := dm.scenes) == dm
    ensures r.Ok? ==> (r.value.scenes.Some? <==> dm.scenes.Some?)
    ensures r.Ok? && dm.scenes.Some? ==>
      r.value.scenes.value.Keys == dm.scenes.value.Keys
      && forall s :: s in dm.scenes.value ==> |r.value.scenes.value[s]| <= |dm.scenes.value[s]|
    ensures !updateMap || dm.scenes.None? ==> r == Ok(dm)
    ensures r.Err? ==> r.error == DeleteOutOfRange
  {
    if !updateMap || dm.scenes.None? then
      Ok(dm)
    else if PrunesCleanly(dm.scenes.value) then
      Ok(dm.(scenes := Some(map s | s in dm.scenes.value :: Prune(dm.scenes.value[s]).value)))
    else
      Err(DeleteOutOfRange)
  }

  /**
   * The four checks on entry `i` of `scene`, in the source's order: the error
   * keys they record and whether the entry is to be removed.
   */
  method CheckEntry(scene: string, i: nat, obj: Entry) returns (found: set<ErrorKey>, removeKey: bool)
    ensures removeKey <==> Flagged(obj)
    ensures forall k :: k in found <==> k.EntryError? && k.scene == scene && k.index == i && Fails(obj, k.check)
  {
    found, removeKey := {}, false;
    if obj.kind.None? {
      found := found + {EntryError(scene, i, NoType)};
      removeKey := true;
    }
    if obj.id.None? {
      found := found + {EntryError(scene, i, NoId)};
      removeKey := true;
    }
    if obj.payload.None? {
      found := found + {EntryError(scene, i, NoPayload)};
      removeKey := true;
    }
    if obj.loop.Some? && !obj.loop.value.Bool? {
      found := found + {EntryError(scene, i, LoopBadType)};
      removeKey := true;
    }
    forall k: ErrorKey | k.EntryError? && k.scene == scene && k.index == i && Fails(obj, k.check)
      ensures k in found
    {
      assert k == EntryError(scene, i, k.check);
      match k.check
      case NoType => assert obj.kind.None?;
      case NoId => assert obj.id.None?;
      case NoPayload => assert obj.payload.None?;
      case LoopBadType => assert obj.loop.Some? && !obj.loop.value.Bool?;
    }
  }

  /**
   * One iteration of the outer loop of `validate_mapping`: the scan of scene
   * `s`, which records the error keys of its entries and, with `update_map`,
   * deletes each flagged entry from the copy's list at its original index.
   * `None` is the `IndexError` of a deletion past the end of that list.
   */
  method ScanScene(s: string, entries: seq<Entry>, updateMap: bool) returns (found: set<ErrorKey>, list: Option<seq<Entry>>)
    ensures list.Some? <==> !updateMap || Prune(entries).Some?
    ensures list.Some? ==> list.value == if updateMap then Prune(entries).value else entries
    ensures list.Some? ==> forall k :: k in found <==>
      k.EntryError? && k.scene == s && k.index < |entries| && Fails(entries[k.index], k.check)
  {
    found := {};
    var copy := entries;
    var i := 0;
    while i < |entries|
      invariant 0 <= i <= |entries|
      invariant updateMap ==> PruneFrom(entries, copy, i) == Prune(entries)
      invariant !updateMap ==> copy == entries
      invariant forall k :: k in found <==>
        k.EntryError? && k.scene == s && k.index < i && Fails(entries[k.index], k.check)
    {
      var more, removeKey := CheckEntry(s, i, entries[i]);
      found := found + more;
      if removeKey && updateMap {
        if i >= |copy| {
          return found, None;
        }
        copy := Delete(copy, i);
      }
      i := i + 1;
    }
    list := Some(copy);
  }

  /** Once every scene's pass has completed, the gathered lists are the pruned copy. */
  lemma GatheredIsPruned(scenes: Scenes, copy: Scenes)
    requires copy.Keys == scenes.Keys
    requires forall s :: s in scenes ==> Prune(scenes[s]) == Some(copy[s])
    ensures PrunesCleanly(scenes)
    ensures copy == map s | s in scenes :: Prune(scenes[s]).value
  {
  }

  /**
   * `validate_mapping` as the source runs it: a loop over the scenes, error
   * keys collected as they are found, and the pruned lists gathered into the
   * copy.
   */
  method ValidateMapping(dataMap: DataMap, updateMap: bool) returns (r: Result<Report, Fault>)
    ensures r.Ok? <==> Validate(dataMap, updateMap).Ok?
    ensures r.Ok? ==> r.value.result == Validate(dataMap, updateMap).value
    ensures r.Ok? ==> forall k :: k in r.value.errors <==> Reported(dataMap, k)
    ensures r.Err? ==> r.error == DeleteOutOfRange
  {
    var errors: set<ErrorKey> := {};
    if dataMap.scenes.None? {
      errors := errors + {ScenesMissing};
      return Ok(Report(dataMap, errors));
    }
    var scenes := dataMap.scenes.value;
    var copy := scenes;
    var pending := scenes.Keys;
    while pending != {}
      invariant pending <= scenes.Keys && copy.Keys == scenes.Keys
      invariant forall s :: s in scenes && s !in pending ==>
        if updateMap then Prune(scenes[s]) == Some(copy[s]) else copy[s] == scenes[s]
      invariant forall k :: k in errors <==> k.EntryError? && k.scene !in pending && Reported(dataMap, k)
      decreases pending
    {
      var s :| s in pending;
      var found, list := ScanScene(s, scenes[s], updateMap);
      if list.None? {
        return Err(DeleteOutOfRange);
      }
      errors := errors + found;
      copy := copy[s := list.value];
      pending := pending - {s};
    }
    if updateMap {
      GatheredIsPruned(scenes, copy);
      r := Ok(Report(dataMap.(scenes := Some(copy)), errors));
    } else {
      assert copy == scenes;
      r := Ok(Report(dataMap, errors));
    }
  }

  // ---------------------------------------------------------------------
  // The reference definition: what the deletion evidently aims at.
  // ---------------------------------------------------------------------

  /** The scene with every flagged entry filtered out. */
  function Keep(xs: seq<Entry>): (r: seq<Entry>)
    ensures |r| == |xs| - FlaggedCount(xs)
    ensures forall e :: e in r ==> e in xs && !Flagged(e)
  {
    if xs == [] then [] else (if Flagged(xs[0]) then [] else [xs[0]]) + Keep(xs[1..])
  }

  /** Filtering a list with a kept head keeps that head in front. */
  lemma KeepKeptHead(e: Entry, rest: seq<Entry>)
    requires !Flagged(e)
    ensures Keep([e] + rest) == [e] + Keep(rest)
  {
    assert ([e] + rest)[1..] == rest;
  }

  /** Filtering is idempotent. */
  lemma {:induction false} KeepIdempotent(xs: seq<Entry>)
    ensures Keep(Keep(xs)) == Keep(xs)
  {
    if xs != [] {
      KeepIdempotent(xs[1..]);
      var rest := Keep(xs[1..]);
      if Flagged(xs[0]) {
        assert Keep(xs) == rest;
      } else {
        assert Keep(xs) == [xs[0]] + rest;
        KeepKeptHead(xs[0], rest);
      }
    }
  }

  /** A scene without flagged entries survives filtering whole. */
  lemma {:induction false} KeepNoneFlagged(xs: seq<Entry>)
    requires forall j :: 0 <= j < |xs| ==> !Flagged(xs[j])
    ensures Keep(xs) == xs
  {
    if xs != [] {
      KeepNoneFlagged(xs[1..]);
    }
  }

  /** A scene with exactly one flagged entry loses exactly that entry to filtering. */
  lemma {:induction false} KeepOneFlagged(xs: seq<Entry>, f: nat)
    requires f < |xs| && Flagged(xs[f])
    requires forall j :: 0 <= j < |xs| && j != f ==> !Flagged(xs[j])
    ensures Keep(xs) == Delete(xs, f)
  {
    if f == 0 {
      KeepNoneFlagged(xs[1..]);
      assert Delete(xs, 0) == xs[1..];
    } else {
      assert !Flagged(xs[0]);
      KeepOneFlagged(xs[1..], f - 1);
      DeleteCons(xs, f);
    }
  }

  /** Deleting past the head of a list leaves the head in front. */
  lemma DeleteCons(xs: seq<Entry>, i: nat)
    requires 0 < i < |xs|
    ensures Delete(xs, i) == [xs[0]] + Delete(xs[1..], i - 1)
  {
    assert xs[..i] == [xs[0]] + xs[1..][..i - 1];
    assert xs[i + 1..] == xs[1..][i..];
  }

  // ---------------------------------------------------------------------
  // What the as-written deletion does.
  // ---------------------------------------------------------------------

  /** With no flagged entry from `i` on, the pass leaves the copy as it is. */
  lemma {:induction false} PruneFromNoneFlagged(orig: seq<Entry>, copy: seq<Entry>, i: nat)
    requires i <= |orig|
    requires forall j :: i <= j < |orig| ==> !Flagged(orig[j])
    ensures PruneFrom(orig, copy, i) == Some(copy)
    decreases |orig| - i
  {
    if i < |orig| {
      PruneFromNoneFlagged(orig, copy, i + 1);
    }
  }

  /**
   * With exactly one flagged entry at or after `i`, at original position `f`,
   * the pass deletes position `f` of the copy, provided the copy still reaches it.
   */
  lemma {:induction false} PruneFromOneFlagged(orig: seq<Entry>, copy: seq<Entry>, i: nat, f: nat)
    requires i <= f < |orig| && f < |copy| && Flagged(orig[f])
    requires forall j :: i <= j < |orig| && j != f ==> !Flagged(orig[j])
    ensures PruneFrom(orig, copy, i) == Some(Delete(copy, f))
    decreases |orig| - i
  {
    if i < f {
      PruneFromOneFlagged(orig, copy, i + 1, f);
    } else {
      PruneFromNoneFlagged(orig, Delete(copy, f), f + 1);
    }
  }

  /** A scene with no flagged entry is left unchanged. */
  lemma PruneNoneFlagged(scene: seq<Entry>)
    requires forall j :: 0 <= j < |scene| ==> !Flagged(scene[j])
    ensures Prune(scene) == Some(scene) == Some(Keep(scene))
  {
    PruneFromNoneFlagged(scene, scene, 0);
    KeepNoneFlagged(scene);
  }

  /** A scene with at most one flagged entry comes out as the input minus that entry: the filter. */
  lemma PruneAtMostOneFlagged(scene: seq<Entry>)
    requires FlaggedCount(scene) <= 1
    ensures Prune(scene) == Some(Keep(scene))
  {
    if forall j :: 0 <= j < |scene| ==> !Flagged(scene[j]) {
      PruneNoneFlagged(scene);
    } else {
      var f :| 0 <= f < |scene| && Flagged(scene[f]);
      forall j | 0 <= j < |scene| && j != f
        ensures !Flagged(scene[j])
      {
        if Flagged(scene[j]) {
          TwoFlaggedCount(scene, j, f);
        }
      }
      PruneFromOneFlagged(scene, scene, 0, f);
      KeepOneFlagged(scene, f);
    }
  }

  /** Indices that are not flagged are skipped: the pass resumes at the next flagged one. */
  lemma {:induction false} PruneFromSkip(orig: seq<Entry>, copy: seq<Entry>, i: nat, j: nat)
    requires i <= j <= |orig|
    requires forall k :: i <= k < j ==> !Flagged(orig[k])
    ensures PruneFrom(orig, copy, i) == PruneFrom(orig, copy, j)
    decreases j - i
  {
    if i < j {
      PruneFromSkip(orig, copy, i + 1, j);
    }
  }

  /** At a flagged index the pass, if it completes, deletes that position of the copy and moves on. */
  lemma PruneFromAtFlagged(orig: seq<Entry>, copy: seq<Entry>, i: nat)
    requires i < |orig| && Flagged(orig[i]) && PruneFrom(orig, copy, i).Some?
    ensures i < |copy| && PruneFrom(orig, copy, i) == PruneFrom(orig, Delete(copy, i), i + 1)
  {
  }

  /** The pass from `i` on only deletes at positions `i` and beyond, so every position before `i` keeps its entry. */
  lemma {:induction false} PruneFromKeepsBefore(orig: seq<Entry>, copy: seq<Entry>, i: nat, p: nat)
    requires i <= |orig| && p < i && p < |copy|
    requires PruneFrom(orig, copy, i).Some?
    ensures p < |PruneFrom(orig, copy, i).value| && PruneFrom(orig, copy, i).value[p] == copy[p]
    decreases |orig| - i
  {
    if i < |orig| {
      if !Flagged(orig[i]) {
        PruneFromKeepsBefore(orig, copy, i + 1, p);
      } else {
        PruneFromKeepsBefore(orig, Delete(copy, i), i + 1, p);
      }
    }
  }

  /** The first flagged position at or after `from`, and what is left to count after it. */
  lemma {:induction false} FirstFlagged(xs: seq<Entry>, from: nat) returns (a: nat)
    requires from <= |xs| && FlaggedCount(xs[from..]) >= 1
    ensures from <= a < |xs| && Flagged(xs[a])
    ensures forall j :: from <= j < a ==> !Flagged(xs[j])
    ensures FlaggedCount(xs[a + 1..]) == FlaggedCount(xs[from..]) - 1
    decreases |xs| - from
  {
    assert xs[from..][1..] == xs[from + 1..];
    if Flagged(xs[from]) {
      a := from;
    } else {
      a := FirstFlagged(xs, from + 1);
    }
  }

  /**
   * With flagged entries first at `a` and next at `b`, the pass deletes
   * original `b + 1` instead of `b`: the entry at `b` slides to `b - 1`, where
   * nothing later deletes it, and survives.
   */
  lemma SecondFlaggedSurvives(scene: seq<Entry>, a: nat, b: nat)
    requires a < b < |scene| && Flagged(scene[a]) && Flagged(scene[b])
    requires forall j :: 0 <= j < b && j != a ==> !Flagged(scene[j])
    requires Prune(scene).Some?
    ensures b - 1 < |Prune(scene).value| && Prune(scene).value[b - 1] == scene[b]
  {
    PruneToSecondFlagged(scene, a, b);
    var copy2 := Delete(Delete(scene, a), b);
    assert copy2[b - 1] == scene[b];
    PruneFromKeepsBefore(scene, copy2, b + 1, b - 1);
  }

  /** The pass up to and including the second flagged index: two deletions, at `a` and then at `b` of the shrunk copy. */
  lemma PruneToSecondFlagged(scene: seq<Entry>, a: nat, b: nat)
    requires a < b < |scene| && Flagged(scene[a]) && Flagged(scene[b])
    requires forall j :: 0 <= j < b && j != a ==> !Flagged(scene[j])
    requires Prune(scene).Some?
    ensures b < |Delete(scene, a)| && Prune(scene) == PruneFrom(scene, Delete(Delete(scene, a), b), b + 1)
  {
    PruneFromSkip(scene, scene, 0, a);
    PruneFromAtFlagged(scene, scene, a);
    PruneFromSkip(scene, Delete(scene, a), a + 1, b);
    PruneFromAtFlagged(scene, Delete(scene, a), b);
  }

  /** With two or more flagged entries the as-written pass never equals the filter: it raises, or keeps a flagged entry. */
  lemma PruneDiffersFromKeep(scene: seq<Entry>)
    requires FlaggedCount(scene) >= 2
    ensures Prune(scene) != Some(Keep(scene))
  {
    if Prune(scene).Some? {
      assert scene[0..] == scene;
      var a := FirstFlagged(scene, 0);
      var b := FirstFlagged(scene, a + 1);
      SecondFlaggedSurvives(scene, a, b);
      assert scene[b] in Prune(scene).value;
    }
  }

  /** The pass agrees with the filter exactly on the scenes with at most one flagged entry. */
  lemma PruneIsKeepIff(scene: seq<Entry>)
    ensures Prune(scene) == Some(Keep(scene)) <==> FlaggedCount(scene) <= 1
  {
    if FlaggedCount(scene) <= 1 {
      PruneAtMostOneFlagged(scene);
    } else {
      PruneDiffersFromKeep(scene);
    }
  }

  /** Two distinct flagged positions make the count at least two. */
  lemma {:induction false} TwoFlaggedCount(xs: seq<Entry>, a: nat, b: nat)
    requires a < |xs| && b < |xs| && a != b && Flagged(xs[a]) && Flagged(xs[b])
    ensures FlaggedCount(xs) >= 2
  {
    if a == 0 {
      OneFlaggedCount(xs[1..], b - 1);
    } else if b == 0 {
      OneFlaggedCount(xs[1..], a - 1);
    } else {
      TwoFlaggedCount(xs[1..], a - 1, b - 1);
    }
  }

  /** One flagged position makes the count at least one. */
  lemma {:induction false} OneFlaggedCount(xs: seq<Entry>, a: nat)
    requires a < |xs| && Flagged(xs[a])
    ensures FlaggedCount(xs) >= 1
  {
    if a > 0 {
      OneFlaggedCount(xs[1..], a - 1);
    }
  }

  /** A deletion pass that completes shortens the scene by exactly the number of flagged entries. */
  lemma PruneLength(scene: seq<Entry>)
    requires Prune(scene).Some?
    ensures |Prune(scene).value| == |scene| - FlaggedCount(scene)
  {
    assert scene[0..] == scene;
  }

  /**
   * A map whose scenes hold no flagged entry is returned unchanged, and no
   * error key is recorded.
   */
  lemma ValidateWellFormed(dm: DataMap)
    requires dm.scenes.Some?
    requires forall s, j :: s in dm.scenes.value && 0 <= j < |dm.scenes.value[s]| ==> !Flagged(dm.scenes.value[s][j])
    ensures Validate(dm, true) == Ok(dm)
    ensures forall k :: !Reported(dm, k)
  {
    var sc := dm.scenes.value;
    forall s | s in sc
      ensures Prune(sc[s]) == Some(sc[s])
    {
      PruneNoneFlagged(sc[s]);
    }
    assert (map s | s in sc :: Prune(sc[s]).value) == sc;
    forall k
      ensures !Reported(dm, k)
    {
      if k.EntryError? && k.scene in sc && k.index < |sc[k.scene]| {
        assert !Flagged(sc[k.scene][k.index]);
      }
    }
  }

  /** With at most one flagged entry per scene, validation is exactly the filter. */
  lemma ValidateAtMostOneFlagged(dm: DataMap)
    requires dm.scenes.Some?
    requires forall s :: s in dm.scenes.value ==> FlaggedCount(dm.scenes.value[s]) <= 1
    ensures Validate(dm, true) == Ok(dm.(scenes := Some(map s | s in dm.scenes.value :: Keep(dm.scenes.value[s]))))
  {
    var sc := dm.scenes.value;
    forall s | s in sc
      ensures Prune(sc[s]) == Some(Keep(sc[s]))
    {
      PruneAtMostOneFlagged(sc[s]);
    }
    assert (map s | s in sc :: Prune(sc[s]).value) == (map s | s in sc :: Keep(sc[s]));
  }

  /** An entry without `type`, `id` or `payload`. */
  const BARE: Entry := Entry(None, None, None, None, None, None, None, None)

  /** A well-formed sound entry. */
  const GOOD: Entry := Entry(Some(Sound), Some("rain"), Some("rain.ogg"), None, None, None, None, None)

  /** Counterexample: `[bad, bad, good]` ends as `[bad]`: the good entry goes and a flagged one stays. */
  lemma WrongEntryRemoved()
    ensures Prune([BARE, BARE, GOOD]) == Some([BARE])
    ensures Keep([BARE, BARE, GOOD]) == [GOOD]
  {
    var orig := [BARE, BARE, GOOD];
    assert Delete(orig, 0) == [BARE, GOOD];
    assert Delete([BARE, GOOD], 1) == [BARE];
    assert PruneFrom(orig, [BARE], 2) == Some([BARE]);
    assert PruneFrom(orig, [BARE, GOOD], 1) == Some([BARE]);
    assert Keep([GOOD]) == [GOOD];
    assert Keep([BARE, GOOD]) == [GOOD];
  }

  /** Counterexample: `[good, bad, bad]` makes the second `del` run past the end of the copy. */
  lemma DeletionRunsOffTheEnd()
    ensures Prune([GOOD, BARE, BARE]) == None
    ensures Validate(DataMap(Some(map["intro" := [GOOD, BARE, BARE]]), None, None, None, "", None), true) == Err(DeleteOutOfRange)
  {
    var orig := [GOOD, BARE, BARE];
    assert Delete(orig, 1) == [GOOD, BARE];
    assert PruneFrom(orig, [GOOD, BARE], 2) == None;
    assert PruneFrom(orig, orig, 1) == None;
    assert Prune(orig) == None;
    FailedPruneFailsValidation(DataMap(Some(map["intro" := orig]), None, None, None, "", None), "intro");
  }

  /** One scene whose deletion pass raises makes the whole of `validate_mapping` raise. */
  lemma FailedPruneFailsValidation(dm: DataMap, s: string)
    requires dm.scenes.Some? && s in dm.scenes.value && Prune(dm.scenes.value[s]).None?
    ensures Validate(dm, true) == Err(DeleteOutOfRange)
  {
  }

  /**
   * Validation is not idempotent: validating the result of validating a map
   * whose scene is `[bad, bad, good]` removes one more entry.
   */
  lemma NotIdempotent()
    ensures var dm := DataMap(Some(map["intro" := [BARE, BARE, GOOD]]), None, None, None, "", None);
            && Validate(dm, true) == Ok(dm.(scenes := Some(map["intro" := [BARE]])))
            && Validate(Validate(dm, true).value, true) == Ok(dm.(scenes := Some(map["intro" := []])))
  {
    WrongEntryRemoved();
    BarePrunedAway();
    ValidateOneScene(DataMap(Some(map["intro" := [BARE, BARE, GOOD]]), None, None, None, "", None), "intro", [BARE]);
    ValidateOneScene(DataMap(Some(map["intro" := [BARE]]), None, None, None, "", None), "intro", []);
  }

  /** A lone bare entry is deleted. */
  lemma BarePrunedAway()
    ensures Prune([BARE]) == Some([])
  {
    assert Delete([BARE], 0) == [];
    assert PruneFrom([BARE], [], 1) == Some([]);
    assert PruneFrom([BARE], [BARE], 0) == PruneFrom([BARE], Delete([BARE], 0), 1);
  }

  /** Validation of a map with one scene is the deletion pass on that scene. */
  lemma ValidateOneScene(dm: DataMap, name: string, pruned: seq<Entry>)
    requires dm.scenes.Some? && dm.scenes.value.Keys == {name}
    requires Prune(dm.scenes.value[name]) == Some(pruned)
    ensures Validate(dm, true) == Ok(dm.(scenes := Some(map[name := pruned])))
  {
    var sc := dm.scenes.value;
    assert PrunesCleanly(sc);
    assert (map s | s in sc :: Prune(sc[s]).value) == map[name := pruned];
  }

  /**
   * The four checks are independent: an entry missing `type`, `id` and
   * `payload` gets three error keys, yet is deleted once.
   */
  lemma SeveralErrorsOneDeletion()
    ensures var dm := DataMap(Some(map["intro" := [BARE]]), None, None, None, "", None);
            && Reported(dm, EntryError("intro", 0, NoType))
            && Reported(dm, EntryError("intro", 0, NoId))
            && Reported(dm, EntryError("intro", 0, NoPayload))
            && !Reported(dm, EntryError("intro", 0, LoopBadType))
            && Validate(dm, true) == Ok(dm.(scenes := Some(map["intro" := []])))
  {
    BarePrunedAway();
    ValidateOneScene(DataMap(Some(map["intro" := [BARE]]), None, None, None, "", None), "intro", []);
  }


  /** An unknown `type` tag is never flagged: only the presence of the key is checked. */
  lemma UnknownTagNotFlagged(e: Entry)
    requires e.kind.Some? && e.kind.value.Unknown? && WellTagged(e.kind.value) && e.id.Some? && e.payload.Some?
    requires e.loop.None? || e.loop.value.Bool?
    ensures !Flagged(e) && forall c :: !Fails(e, c)
  {
  }

  /**
   * An explicit `loop: null` fails the type check: the key is present and its
   * value is not a `bool`, so the entry is reported and removed.
   */
  lemma NullLoopFlagged(e: Entry)
    requires e.loop == Some(Null)
    ensures Fails(e, LoopBadType) && Flagged(e)
  {
  }

  /** An entry is flagged exactly when one of the four checks fails on it. */
  lemma FlaggedIffSomeCheckFails(e: Entry)
    ensures Flagged(e) <==> exists c :: Fails(e, c)
  {
    if e.kind.None? { assert Fails(e, NoType); }
    else if e.id.None? { assert Fails(e, NoId); }
    else if e.payload.None? { assert Fails(e, NoPayload); }
    else if e.loop.Some? && !e.loop.value.Bool? { assert Fails(e, LoopBadType); }
  }
}
