/** The fixed table from a model selector to the checkpoint the generator loads. */
module Registry {
  import opened Wrappers

  const ModelPaths: map<string, string> := map[
    "techno" := "checkpoints/techno",
    "misc" := "checkpoints/misc"
  ]

  /** `MODEL_PATHS[model]` guarded by `model in MODEL_PATHS`: exactly the two
      selectors are known, and each loads the checkpoint of the same name. */
  function LoadPath(model: string): (r: Option<string>)
    ensures r.Some? <==> model == "techno" || model == "misc"
    ensures r.Some? ==> r.value == "checkpoints/" + model
  {
    if model in ModelPaths then Some(ModelPaths[model]) else None
  }
}
