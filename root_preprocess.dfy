/**
 * preprocess.py at the repository root: the preprocess spec handler fills the caller's
 * inputs with the general and per-algorithm keys, names the job `preprocess_...` and always
 * points `modelDir` at a directory named after the job. Its job handler is modelled with the
 * other root job handlers, in RootHandler.
 */
module RootPreprocess {
  import opened Results
  import opened PyStr
  import opened Values
  import opened Utils
  import opened JobNames
  import opened SpecDefaults
  import opened ArgTranslation

  const GlobalArgs: seq<string> := ["scaleTier", "region", "modelDir"]
  const DefaultArgs: seq<string> := ["args", "trainFiles"]

  /** The fill loop's chain: `modelDir` from the bucket address, no hyper-tune branch. */
  const PreprocessLayers: Layers := Layers(GlobalArgs, DefaultArgs, true, false, false)

  /** `spec_full_args` */
  const SpecItems: seq<string> := GlobalArgs + DefaultArgs

  /** The pairs `create_job_request` appends after the user args, popping their keys. */
  const PreprocessFlags: seq<(string, string)> := [("--model-dir", "modelDir"), ("--train-files", "trainFiles")]

  // ---------------------------------------------------------------- PreprocessJobSpecHandler

  /**
   * `create_job_specs` of the preprocess spec handler: fill, name the job, then append the
   * id without its first shard and a `/` to `modelDir`.
   */
  function PreprocessSpecs(entries: map<string, Value>, cfg: Config, algorithm: string, t: Timestamp): (r: SpecsOutcome)
    ensures forall k :: k in entries ==> k in r.entries
    ensures forall k :: k in entries && k != "modelDir" ==> r.entries[k] == entries[k]
    ensures r.entries.Keys <= entries.Keys + ItemSet(SpecItems)
  {
    var filled := Fill(SpecItems, PreprocessLayers, entries, cfg, algorithm);
    var id := PreprocessJobName(filled.entries, algorithm, t);
    NamedSpecs(filled, id, if id.Ok? then Some(DropFirstShard(id.value) + "/") else None)
  }

  /** The preprocess plan, position by position. */
  lemma SpecItemsLayout()
    ensures SpecItems == ["scaleTier", "region", "modelDir", "args", "trainFiles"]
    ensures Distinct(SpecItems)
  {
  }

  /** How the preprocess chain classifies each key of its plan: `modelDir` is read from `MODEL_BUCKET_ADDRESS`. */
  lemma PreprocessOrigins()
    ensures OriginOf("scaleTier", PreprocessLayers) == Ok(Global("scaleTier"))
    ensures OriginOf("region", PreprocessLayers) == Ok(Global("region"))
    ensures OriginOf("modelDir", PreprocessLayers) == Ok(Global("MODEL_BUCKET_ADDRESS"))
    ensures OriginOf("args", PreprocessLayers) == Ok(Default) && OriginOf("trainFiles", PreprocessLayers) == Ok(Default)
  {
    assert "scaleTier" in GlobalArgs && "region" in GlobalArgs && "modelDir" in GlobalArgs;
    assert "args" !in GlobalArgs && "trainFiles" !in GlobalArgs;
  }

  /**
   * A named preprocess job's `modelDir` is the filled directory followed by the id without
   * its first shard and a `/`.
   */
  lemma PreprocessSpecsModelDir(entries: map<string, Value>, cfg: Config, algorithm: string, t: Timestamp)
    requires PreprocessSpecs(entries, cfg, algorithm, t).jobId.Ok?
    ensures var filled := Fill(SpecItems, PreprocessLayers, entries, cfg, algorithm).entries;
            var r := PreprocessSpecs(entries, cfg, algorithm, t);
            && "modelDir" in filled && filled["modelDir"].Str?
            && r.jobId == PreprocessJobName(filled, algorithm, t)
            && r.entries["modelDir"] == Str(filled["modelDir"].s + (DropFirstShard(r.jobId.value) + "/"))
  {
  }

  /**
   * A named preprocess job starts `preprocess_` when the filled `trainFiles` is truthy and
   * `preprocessjob_` otherwise; its `_` shards are that lead, the lowercased segments 3, 4 and 6
   * of `trainFiles` (when truthy), the stamp, the algorithm's shards and the lowercased tier's.
   */
  lemma PreprocessSpecsName(entries: map<string, Value>, cfg: Config, algorithm: string, t: Timestamp)
    requires PreprocessSpecs(entries, cfg, algorithm, t).jobId.Ok?
    ensures var r := PreprocessSpecs(entries, cfg, algorithm, t);
            var e := r.entries;
            && "trainFiles" in e && "scaleTier" in e && e["scaleTier"].Str?
            && (Truthy(e["trainFiles"]) ==> "preprocess_" <= r.jobId.value)
            && (!Truthy(e["trainFiles"]) ==> "preprocessjob_" <= r.jobId.value)
            && var tail := (Split(algorithm, '_') + Split(Lower(e["scaleTier"].s), '_'));
            && (Truthy(e["trainFiles"]) ==>
                  var S := Split(e["trainFiles"].s, '/');
                  Split(r.jobId.value, '_') == ["preprocess"] + Split(Lower(S[3]), '_') + Split(Lower(S[4]), '_')
                                               + Split(Lower(S[6]), '_') + [Stamp(t)] + tail)
            && (!Truthy(e["trainFiles"]) ==> Split(r.jobId.value, '_') == ["preprocessjob", Stamp(t)] + tail)
  {
    var filled := Fill(SpecItems, PreprocessLayers, entries, cfg, algorithm);
    var r := PreprocessSpecs(entries, cfg, algorithm, t);
    assert SpecItems[4] == "trainFiles";
    assert filled.error.None?;
    assert "trainFiles" in filled.entries;
    assert r.jobId == PreprocessJobName(filled.entries, algorithm, t);
    assert r.entries["trainFiles"] == filled.entries["trainFiles"];
    assert r.entries["scaleTier"] == filled.entries["scaleTier"];
    PreprocessJobNameShards(filled.entries, algorithm, t);
    LeadLiterals();
  }

  /**
   * Where a successful fill's missing keys come from: `scaleTier` and `region` from the
   * globals, `modelDir` from `MODEL_BUCKET_ADDRESS`.
   */
  lemma PreprocessSpecsGlobals(entries: map<string, Value>, cfg: Config, algorithm: string)
    requires Fill(SpecItems, PreprocessLayers, entries, cfg, algorithm).error.None?
    ensures var e := Fill(SpecItems, PreprocessLayers, entries, cfg, algorithm).entries;
            && "scaleTier" in e && "region" in e && "modelDir" in e
            && ("scaleTier" !in entries ==> "scaleTier" in cfg.globals && e["scaleTier"] == cfg.globals["scaleTier"])
            && ("region" !in entries ==> "region" in cfg.globals && e["region"] == cfg.globals["region"])
            && ("modelDir" !in entries ==> "MODEL_BUCKET_ADDRESS" in cfg.globals
                                           && e["modelDir"] == cfg.globals["MODEL_BUCKET_ADDRESS"])
  {
    SpecItemsLayout();
    PreprocessOrigins();
    if "scaleTier" !in entries { FillFromGlobal(SpecItems, PreprocessLayers, entries, cfg, algorithm, 0, "scaleTier"); }
    if "region" !in entries { FillFromGlobal(SpecItems, PreprocessLayers, entries, cfg, algorithm, 1, "region"); }
    if "modelDir" !in entries { FillFromGlobal(SpecItems, PreprocessLayers, entries, cfg, algorithm, 2, "MODEL_BUCKET_ADDRESS"); }
  }

  /** A successful fill's missing `args` and `trainFiles` come from the algorithm's defaults. */
  lemma PreprocessSpecsAlgorithmDefaults(entries: map<string, Value>, cfg: Config, algorithm: string)
    requires Fill(SpecItems, PreprocessLayers, entries, cfg, algorithm).error.None?
    ensures var e := Fill(SpecItems, PreprocessLayers, entries, cfg, algorithm).entries;
            && "args" in e && "trainFiles" in e
            && ("args" !in entries ==> algorithm in cfg.defaults && Get(cfg.defaults[algorithm], "args") == Ok(e["args"]))
            && ("trainFiles" !in entries ==> algorithm in cfg.defaults
                                             && Get(cfg.defaults[algorithm], "trainFiles") == Ok(e["trainFiles"]))
  {
    SpecItemsLayout();
    PreprocessOrigins();
    if "args" !in entries { FillFromDefault(SpecItems, PreprocessLayers, entries, cfg, algorithm, 3); }
    if "trainFiles" !in entries { FillFromDefault(SpecItems, PreprocessLayers, entries, cfg, algorithm, 4); }
  }

  /** `PreprocessJobSpecHandler`: the configuration, the algorithm, the caller's inputs dict and the specs built. */
  class PreprocessJobSpecHandler {
    const cfg: Config
    const algorithm: string
    const inputs: PyDict
    const projectId: Value
    var jobSpecs: Option<JobSpec>

    constructor (cfg: Config, algorithm: string, inputs: PyDict, projectId: Value)
      ensures this.cfg == cfg && this.algorithm == algorithm && this.inputs == inputs
      ensures this.projectId == projectId && jobSpecs.None?
    {
      this.cfg := cfg;
      this.algorithm := algorithm;
      this.inputs := inputs;
      this.projectId := projectId;
      jobSpecs := None;
    }

    /** `create_job_specs()`: fills the shared inputs, suffixes `modelDir` and sets `job_specs`, or raises. */
    method CreateJobSpecs(t: Timestamp) returns (err: Option<Error>)
      modifies this, inputs
      ensures var r := PreprocessSpecs(old(inputs.entries), cfg, algorithm, t);
              && inputs.entries == r.entries
              && (r.jobId.Ok? ==> err.None? && jobSpecs == Some(JobSpec(r.jobId.value, inputs)))
              && (r.jobId.Err? ==> err == Some(r.jobId.error) && jobSpecs == old(jobSpecs))
    {
      err := FillInputs(inputs, SpecItems, PreprocessLayers, cfg, algorithm);
      if err.Some? {
        return;
      }
      var id := PreprocessJobName(inputs.entries, algorithm, t);
      if id.Err? {
        return Some(id.error);
      }
      var suffixed := AppendToModelDir(inputs.entries, DropFirstShard(id.value) + "/");
      if suffixed.Err? {
        return Some(suffixed.error);
      }
      inputs.entries := suffixed.value;
      jobSpecs := Some(JobSpec(id.value, inputs));
    }
  }

  /**
   * `PreprocessJobSpecHandler(...)`: stores the algorithm's first `PREPROCESS` image in the
   * caller's inputs, or raises ValueError for an algorithm the registry does not list.
   */
  method NewPreprocessJobSpecHandler(deployment: map<string, Value>, cfg: Config, algorithm: string, inputs: PyDict,
                                     projectId: Value) returns (r: Result<PreprocessJobSpecHandler>)
    modifies inputs
    ensures var image := RegistryImage(deployment, "PREPROCESS", algorithm, Some(0));
            && (image.Err? ==> r == Err(image.error) && inputs.entries == old(inputs.entries))
            && (image.Ok? ==> r.Ok? && fresh(r.value) && inputs.entries == old(inputs.entries)["imageUri" := image.value]
                              && r.value.inputs == inputs && r.value.algorithm == algorithm && r.value.cfg == cfg
                              && r.value.projectId == projectId && r.value.jobSpecs.None?)
  {
    var image := RegistryImage(deployment, "PREPROCESS", algorithm, Some(0));
    if image.Err? {
      return Err(image.error);
    }
    inputs.entries := inputs.entries["imageUri" := image.value];
    var handler := new PreprocessJobSpecHandler(cfg, algorithm, inputs, projectId);
    return Ok(handler);
  }

  // ---------------------------------------------------------------- create_job_request

  lemma PreprocessFlagsWellFormed()
    ensures WellFormedFlags(PreprocessFlags)
  {
  }

  /**
   * The rewrite `create_job_request` performs on a spec's `trainingInput`: the image under
   * `masterConfig`, the user args (None as `[]`) prefixed and followed by the flat
   * `--model-dir` and `--train-files` pairs, and those two keys popped.
   */
  lemma PreprocessRequestSpec(ti: map<string, Value>)
    requires Translate(ti, KeepUserArgs, PreprocessFlags).error.None?
    ensures var out := Translate(ti, KeepUserArgs, PreprocessFlags).entries;
            && "imageUri" in ti && "args" in ti && "modelDir" in ti && "trainFiles" in ti
            && "imageUri" !in out && "modelDir" !in out && "trainFiles" !in out
            && "masterConfig" in out && out["masterConfig"] == Dict(map["imageUri" := ti["imageUri"]])
            && NormalizeArgs(ti["args"]).Extendable? && "args" in out
            && out["args"] == List(NormalizeArgs(ti["args"]).items
                                   + [Str("--model-dir"), ti["modelDir"], Str("--train-files"), ti["trainFiles"]])
  {
    var flags := PreprocessFlags;
    PreprocessFlagsWellFormed();
    TranslateSpec(ti, KeepUserArgs, flags);
    assert flags[0].1 == "modelDir" && flags[1].1 == "trainFiles";
    assert FlagKeys(flags) == {"modelDir", "trainFiles"};
    assert flags[1..][1..] == [];
    assert FlagPairs(ti, flags[1..]) == [Str("--train-files"), ti["trainFiles"]];
  }
}
