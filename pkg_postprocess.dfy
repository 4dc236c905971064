/**
 * gcpaiutils/postprocess.py: the post-processing stage. Its spec handler fills `scaleTier`,
 * `region`, `args`, `scoreDir` and `outputDir`, names the job `postprocess_...` and never
 * touches `modelDir`; its translation appends `--score-dir` and `--output-dir`.
 */
module PkgPostprocess {
  import opened Results
  import opened Values
  import opened Utils
  import opened JobNames
  import opened SpecDefaults
  import opened ArgTranslation

  const GlobalArgs: seq<string> := ["scaleTier", "region"]
  const DefaultArgs: seq<string> := ["args", "scoreDir", "outputDir"]

  /** The fill chain: its `modelDir` branch exists but no post-processing key reaches it; no hyper-tune branches. */
  const PostprocessLayers: Layers := Layers(GlobalArgs, DefaultArgs, true, false, false)

  /** `spec_full_args`. */
  const SpecItems: seq<string> := GlobalArgs + DefaultArgs

  /** The pairs `translate_job_specs` appends. */
  const PostprocessFlags: seq<(string, string)> := [("--score-dir", "scoreDir"), ("--output-dir", "outputDir")]

  lemma PostprocessFlagsWellFormed()
    ensures WellFormedFlags(PostprocessFlags)
  {
  }

  /**
   * A successful post-processing translation: the image under `masterConfig`, the user args
   * prefixed and followed by the score-dir and output-dir pairs, both keys popped.
   */
  lemma PostprocessTranslationSpec(ti: map<string, Value>)
    requires Translate(ti, KeepUserArgs, PostprocessFlags).error.None?
    ensures var out := Translate(ti, KeepUserArgs, PostprocessFlags);
            && "imageUri" in ti && "args" in ti && "scoreDir" in ti && "outputDir" in ti
            && "imageUri" !in out.entries && "scoreDir" !in out.entries && "outputDir" !in out.entries
            && "masterConfig" in out.entries && out.entries["masterConfig"] == Dict(map["imageUri" := ti["imageUri"]])
            && NormalizeArgs(ti["args"]).Extendable? && "args" in out.entries
            && out.entries["args"] == List(NormalizeArgs(ti["args"]).items
                                           + [Str("--score-dir"), ti["scoreDir"], Str("--output-dir"), ti["outputDir"]])
  {
    PostprocessFlagsWellFormed();
    TranslateSpec(ti, KeepUserArgs, PostprocessFlags);
    assert FlagKeys(PostprocessFlags) == {"scoreDir", "outputDir"};
    assert PostprocessFlags[1..][1..] == [];
  }

  /** `create_job_specs` of the post-processing spec handler: fill, then name the job with prefix `postprocess`. */
  function PostprocessSpecs(entries: map<string, Value>, cfg: Config, algorithm: string, requestIds: Value,
                            t: Timestamp): (r: SpecsOutcome)
    ensures forall k :: k in entries ==> k in r.entries && r.entries[k] == entries[k]
    ensures r.jobId.Ok? ==> r.jobId == PkgJobName("postprocess", requestIds, t, algorithm)
  {
    var filled := Fill(SpecItems, PostprocessLayers, entries, cfg, algorithm);
    if filled.error.Some? then SpecsOutcome(filled.entries, Err(filled.error.value))
    else SpecsOutcome(filled.entries, PkgJobName("postprocess", requestIds, t, algorithm))
  }

  /** The post-processing spec never gains a `modelDir`, whatever `append_job_id` says. */
  lemma PostprocessSpecsNoModelDir(entries: map<string, Value>, cfg: Config, algorithm: string, requestIds: Value,
                                   t: Timestamp)
    requires "modelDir" !in entries
    ensures "modelDir" !in PostprocessSpecs(entries, cfg, algorithm, requestIds, t).entries
  {
    var filled := Fill(SpecItems, PostprocessLayers, entries, cfg, algorithm);
    assert "modelDir" !in ItemSet(SpecItems);
  }

  /** The post-processing plan, position by position. */
  lemma SpecItemsLayout()
    ensures |SpecItems| == 5
    ensures SpecItems[0] == "scaleTier" && SpecItems[1] == "region"
    ensures SpecItems[2] == "args" && SpecItems[3] == "scoreDir" && SpecItems[4] == "outputDir"
    ensures Distinct(SpecItems)
  {
  }

  /** A successful spec's missing `scaleTier` and `region` come from the globals. */
  lemma PostprocessSpecsGlobals(entries: map<string, Value>, cfg: Config, algorithm: string)
    requires Fill(SpecItems, PostprocessLayers, entries, cfg, algorithm).error.None?
    ensures var e := Fill(SpecItems, PostprocessLayers, entries, cfg, algorithm).entries;
            && "scaleTier" in e && "region" in e
            && ("scaleTier" !in entries ==> "scaleTier" in cfg.globals && e["scaleTier"] == cfg.globals["scaleTier"])
            && ("region" !in entries ==> "region" in cfg.globals && e["region"] == cfg.globals["region"])
  {
    SpecItemsLayout();
    PostprocessOrigins();
    if "scaleTier" !in entries { FillFromGlobal(SpecItems, PostprocessLayers, entries, cfg, algorithm, 0, "scaleTier"); }
    if "region" !in entries { FillFromGlobal(SpecItems, PostprocessLayers, entries, cfg, algorithm, 1, "region"); }
  }

  /** The post-processing chain sends the two general keys to the globals and each default key to the algorithm's defaults. */
  lemma PostprocessOrigins()
    ensures OriginOf("scaleTier", PostprocessLayers) == Ok(Global("scaleTier"))
    ensures OriginOf("region", PostprocessLayers) == Ok(Global("region"))
    ensures OriginOf("args", PostprocessLayers) == Ok(Default)
    ensures OriginOf("scoreDir", PostprocessLayers) == Ok(Default)
    ensures OriginOf("outputDir", PostprocessLayers) == Ok(Default)
  {
    assert "scaleTier" in GlobalArgs && "region" in GlobalArgs;
    assert "args" !in GlobalArgs && "scoreDir" !in GlobalArgs && "outputDir" !in GlobalArgs;
  }

  /** A successful spec's missing `args`, `scoreDir` and `outputDir` come from the algorithm's defaults. */
  lemma PostprocessSpecsAlgorithmDefaults(entries: map<string, Value>, cfg: Config, algorithm: string)
    requires Fill(SpecItems, PostprocessLayers, entries, cfg, algorithm).error.None?
    ensures var e := Fill(SpecItems, PostprocessLayers, entries, cfg, algorithm).entries;
            && "args" in e && "scoreDir" in e && "outputDir" in e
            && ("args" !in entries ==> algorithm in cfg.defaults && Get(cfg.defaults[algorithm], "args") == Ok(e["args"]))
            && ("scoreDir" !in entries ==> algorithm in cfg.defaults
                                           && Get(cfg.defaults[algorithm], "scoreDir") == Ok(e["scoreDir"]))
            && ("outputDir" !in entries ==> algorithm in cfg.defaults
                                            && Get(cfg.defaults[algorithm], "outputDir") == Ok(e["outputDir"]))
  {
    SpecItemsLayout();
    PostprocessOrigins();
    if "args" !in entries { FillFromDefault(SpecItems, PostprocessLayers, entries, cfg, algorithm, 2); }
    if "scoreDir" !in entries { FillFromDefault(SpecItems, PostprocessLayers, entries, cfg, algorithm, 3); }
    if "outputDir" !in entries { FillFromDefault(SpecItems, PostprocessLayers, entries, cfg, algorithm, 4); }
  }

  /** `PostprocessJobSpecHandler`: its configuration, algorithm and the caller's inputs dict, and the specs it built. */
  class PostprocessJobSpecHandler {
    const cfg: Config
    const algorithm: string
    const inputs: PyDict
    const requestIds: Value
    var jobSpecs: Option<JobSpec>

    constructor (cfg: Config, algorithm: string, inputs: PyDict, requestIds: Value)
      ensures this.cfg == cfg && this.algorithm == algorithm && this.inputs == inputs
      ensures this.requestIds == requestIds && jobSpecs.None?
    {
      this.cfg := cfg;
      this.algorithm := algorithm;
      this.inputs := inputs;
      this.requestIds := requestIds;
      jobSpecs := None;
    }

    /** `create_job_specs()`: fills the shared inputs and sets `job_specs`, or raises. */
    method CreateJobSpecs(t: Timestamp) returns (err: Option<Error>)
      modifies this, inputs
      ensures var r := PostprocessSpecs(old(inputs.entries), cfg, algorithm, requestIds, t);
              && inputs.entries == r.entries
              && (r.jobId.Ok? ==> err.None? && jobSpecs == Some(JobSpec(r.jobId.value, inputs)))
              && (r.jobId.Err? ==> err == Some(r.jobId.error) && jobSpecs == old(jobSpecs))
    {
      err := FillInputs(inputs, SpecItems, PostprocessLayers, cfg, algorithm);
      if err.Some? {
        return;
      }
      var id := PkgJobName("postprocess", requestIds, t, algorithm);
      if id.Err? {
        return Some(id.error);
      }
      jobSpecs := Some(JobSpec(id.value, inputs));
    }
  }

  /**
   * `PostprocessJobSpecHandler(...)`: the base constructor reads `PROJECT_ID`, then the
   * algorithm's first post-processing image is stored in the caller's inputs; an algorithm
   * missing from `POSTPROCESS` raises ValueError. `append_job_id` is accepted and ignored.
   */
  method NewPostprocessJobSpecHandler(deployment: map<string, Value>, cfg: Config, algorithm: string,
                                      inputs: PyDict, requestIds: Value)
    returns (r: Result<PostprocessJobSpecHandler>)
    modifies inputs
    ensures var image := RegistryImage(deployment, "POSTPROCESS", algorithm, Some(0));
            && ("PROJECT_ID" !in cfg.globals ==> r == Err(KeyError) && inputs.entries == old(inputs.entries))
            && ("PROJECT_ID" in cfg.globals && image.Err? ==> r == Err(image.error) && inputs.entries == old(inputs.entries))
            && ("PROJECT_ID" in cfg.globals && image.Ok? ==>
                  r.Ok? && fresh(r.value) && inputs.entries == old(inputs.entries)["imageUri" := image.value]
                  && r.value.inputs == inputs && r.value.algorithm == algorithm && r.value.cfg == cfg
                  && r.value.requestIds == requestIds && r.value.jobSpecs.None?)
  {
    if "PROJECT_ID" !in cfg.globals {
      return Err(KeyError);
    }
    var image := RegistryImage(deployment, "POSTPROCESS", algorithm, Some(0));
    if image.Err? {
      return Err(image.error);
    }
    inputs.entries := inputs.entries["imageUri" := image.value];
    var handler := new PostprocessJobSpecHandler(cfg, algorithm, inputs, requestIds);
    return Ok(handler);
  }
}
