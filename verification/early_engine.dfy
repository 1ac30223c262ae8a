/**
 * The first sound engine of the repository: it does nothing beyond holding
 * the script, which it runs through `validate_mapping` with the default
 * `update_map=True`, so it always keeps the pruned copy.
 */
module EarlyEngine {
  import opened Wrappers
  import opened ScriptData
  import Validation

  class Engine {
    const dataMap: DataMap

    constructor (dm: DataMap)
      ensures dataMap == dm
    {
      dataMap := dm;
    }

    /**
     * `SoundEngine(data_map)`: either an engine holding the pruned script,
     * or the `IndexError` that pruning a scene with two or more faulty
     * entries raises.
     */
    static method Create(raw: DataMap) returns (r: Result<Engine, Fault>)
      ensures r.Ok? <==> Validation.Validate(raw, true).Ok?
      ensures r.Ok? ==> fresh(r.value) && r.value.dataMap == Validation.Validate(raw, true).value
      ensures r.Err? ==> r.error == DeleteOutOfRange
    {
      var checked := Validation.ValidateMapping(raw, true);
      if checked.Err? {
        return Err(checked.error);
      }
      var engine := new Engine(checked.value.result);
      return Ok(engine);
    }
  }
}
