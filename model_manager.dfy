// The model registry: loaded models and the map from model name to model.
// The model's name (its file name without type) comes from a file-name helper
// outside the model and is passed in.
module ModelManager {
  import opened Wrappers

  class Registry {
    /** The file of each loaded model. */
    var models: seq<string>
    /** Model index by name. */
    var namedModels: map<string, nat>

    ghost predicate Valid()
      reads this
    {
      forall n :: n in namedModels ==> namedModels[n] < |models|
    }

    constructor ()
      ensures Valid()
      ensures models == [] && namedModels == map[]
    {
      models := [];
      namedModels := map[];
    }

    /** Loads a model under its name; a name already loaded gives that model
        and changes nothing. */
    method Load(filepath: string, modelName: string) returns (r: nat)
      requires Valid()
      modifies this
      ensures Valid()
      ensures modelName in namedModels && namedModels[modelName] == r
      ensures modelName in old(namedModels) ==>
        r == old(namedModels)[modelName] && models == old(models) && namedModels == old(namedModels)
      ensures modelName !in old(namedModels) ==>
        r == |old(models)| && models == old(models) + [filepath] &&
        namedModels == old(namedModels)[modelName := r]
    {
      if modelName in namedModels {
        return namedModels[modelName];
      }
      r := |models|;
      models := models + [filepath];
      namedModels := namedModels[modelName := r];
    }

    /** The model registered under the name; nothing for an unknown name. */
    function GetModel(name: string): (r: Option<nat>)
      reads this
      ensures r.None? <==> name !in namedModels
      ensures r.Some? ==> r.value == namedModels[name]
    {
      if name in namedModels then Some(namedModels[name]) else None
    }

    /** Empties the registry. */
    method Shutdown()
      modifies this
      ensures Valid()
      ensures namedModels == map[] && models == []
    {
      namedModels := map[];
      models := [];
    }
  }
}
