/**
 * gcpaiutils/train.py: what the train stage adds to the shared handlers. The spec handler
 * fills the inputs with the train keys (and the hyper-tune keys when tuning), names the job
 * `train_...` and points `modelDir` at a directory named after the job; the job handler's
 * translation appends `--model-dir`, `--train-files` and, when tuning, `--hypertune-loss`.
 */
module PkgTrain {
  import opened Results
  import opened PyStr
  import opened Values
  import opened Utils
  import opened JobNames
  import opened SpecDefaults
  import opened ArgTranslation

  const GlobalArgs: seq<string> := ["scaleTier", "region", "modelDir"]
  const DefaultArgs: seq<string> := ["args", "trainFiles"]

  /** The fill loop's chain: `modelDir` from the bucket address, both hyper-tune branches present. */
  const TrainLayers: Layers := Layers(GlobalArgs, DefaultArgs, true, true, true)

  /** `spec_full_args`: the globals, the defaults, then the hyper-tune keys when tuning. */
  function SpecItems(hypertune: bool): seq<string>
  {
    GlobalArgs + DefaultArgs + (if hypertune then ["hyperparameters", "hypertuneLoss"] else [])
  }

  // ---------------------------------------------------------------- translate_job_specs

  /** The pairs `translate_job_specs` appends: the loss only while the handler is tuning. */
  function TrainFlags(hypertune: bool): (r: seq<(string, string)>)
    ensures WellFormedFlags(r)
  {
    [("--model-dir", "modelDir"), ("--train-files", "trainFiles")]
      + (if hypertune then [("--hypertune-loss", "hypertuneLoss")] else [])
  }

  /**
   * `TrainJobHandler.translate_job_specs` on a spec's `trainingInput`: a spec carrying
   * `hyperparameters` switches the handler to tuning for good, then the shared rewrite runs
   * with the train flags.
   */
  function TrainTranslation(ti: map<string, Value>, hypertune: bool): (r: (bool, Outcome))
    ensures r.0 <==> hypertune || "hyperparameters" in ti
  {
    var tuning := hypertune || "hyperparameters" in ti;
    (tuning, Translate(ti, KeepUserArgs, TrainFlags(tuning)))
  }

  /**
   * A successful train translation: the image under `masterConfig`, the user args prefixed
   * and followed by the model-dir and train-files pairs and, when tuning, the loss pair;
   * `modelDir`, `trainFiles` and (when tuning) `hypertuneLoss` are popped; other keys stay.
   */
  lemma TrainTranslationSpec(ti: map<string, Value>, hypertune: bool)
    requires TrainTranslation(ti, hypertune).1.error.None?
    ensures var (tuning, out) := TrainTranslation(ti, hypertune);
            && "imageUri" in ti && "args" in ti && "modelDir" in ti && "trainFiles" in ti
            && "imageUri" !in out.entries && "modelDir" !in out.entries && "trainFiles" !in out.entries
            && (tuning ==> "hypertuneLoss" in ti && "hypertuneLoss" !in out.entries)
            && "masterConfig" in out.entries && out.entries["masterConfig"] == Dict(map["imageUri" := ti["imageUri"]])
            && NormalizeArgs(ti["args"]).Extendable? && "args" in out.entries
            && out.entries["args"] == List(NormalizeArgs(ti["args"]).items
                                           + [Str("--model-dir"), ti["modelDir"], Str("--train-files"), ti["trainFiles"]]
                                           + (if tuning then [Str("--hypertune-loss"), ti["hypertuneLoss"]] else []))
  {
    var (tuning, out) := TrainTranslation(ti, hypertune);
    TranslateSpec(ti, KeepUserArgs, TrainFlags(tuning));
    TrainFlagPairs(ti, tuning);
    var pairs := [Str("--model-dir"), ti["modelDir"], Str("--train-files"), ti["trainFiles"]];
    var loss := if tuning then [Str("--hypertune-loss"), ti["hypertuneLoss"]] else [];
    assert NormalizeArgs(ti["args"]).items + (pairs + loss) == NormalizeArgs(ti["args"]).items + pairs + loss;
  }

  /** The train pairs, spelled out, and the keys they pop. */
  lemma TrainFlagPairs(ti: map<string, Value>, tuning: bool)
    requires forall i :: 0 <= i < |TrainFlags(tuning)| ==> TrainFlags(tuning)[i].1 in ti
    ensures "modelDir" in ti && "trainFiles" in ti && (tuning ==> "hypertuneLoss" in ti)
    ensures FlagKeys(TrainFlags(tuning)) == {"modelDir", "trainFiles"} + (if tuning then {"hypertuneLoss"} else {})
    ensures FlagPairs(ti, TrainFlags(tuning))
            == [Str("--model-dir"), ti["modelDir"], Str("--train-files"), ti["trainFiles"]]
               + (if tuning then [Str("--hypertune-loss"), ti["hypertuneLoss"]] else [])
  {
    var flags := TrainFlags(tuning);
    assert flags[0].1 == "modelDir" && flags[1].1 == "trainFiles";
    assert tuning ==> flags[2].1 == "hypertuneLoss";
    assert FlagKeys(flags) == {"modelDir", "trainFiles"} + (if tuning then {"hypertuneLoss"} else {});
    if tuning {
      assert flags[1..][1..] == flags[2..] && flags[2..][1..] == [];
      assert FlagPairs(ti, flags[2..]) == [Str("--hypertune-loss"), ti["hypertuneLoss"]];
    } else {
      assert flags[1..][1..] == [];
    }
    assert FlagPairs(ti, flags[1..]) == [Str("--train-files"), ti["trainFiles"]]
                                        + (if tuning then [Str("--hypertune-loss"), ti["hypertuneLoss"]] else []);
  }

  /** Translating with an even number of user args keeps the args even. */
  lemma TrainTranslationKeepsArgsEven(ti: map<string, Value>, hypertune: bool)
    requires "args" in ti && ti["args"].List? && |ti["args"].items| % 2 == 0
    requires TrainTranslation(ti, hypertune).1.error.None?
    ensures var out := TrainTranslation(ti, hypertune).1;
            "args" in out.entries && out.entries["args"].List? && |out.entries["args"].items| % 2 == 0
  {
    var tuning := TrainTranslation(ti, hypertune).0;
    TranslateKeepsArgsEven(ti, KeepUserArgs, TrainFlags(tuning));
  }

  // ---------------------------------------------------------------- TrainJobSpecHandler

  /**
   * `create_job_specs` of the train spec handler as a function of the inputs: fill, name the
   * job with prefix `train`, then, when `append_job_id` is set, append the id without its
   * prefix shard and a `/` to `modelDir`.
   */
  function TrainSpecs(entries: map<string, Value>, cfg: Config, algorithm: string, hypertune: bool,
                      appendJobId: bool, requestIds: Value, t: Timestamp): (r: SpecsOutcome)
    ensures forall k :: k in entries ==> k in r.entries
    ensures forall k :: k in entries && k != "modelDir" ==> r.entries[k] == entries[k]
    ensures "modelDir" in entries && !appendJobId ==> r.entries["modelDir"] == entries["modelDir"]
    ensures r.entries.Keys <= entries.Keys + ItemSet(SpecItems(hypertune))
  {
    var filled := Fill(SpecItems(hypertune), TrainLayers, entries, cfg, algorithm);
    var id := PkgJobName("train", requestIds, t, algorithm);
    NamedSpecs(filled, id, if appendJobId && id.Ok? then Some(DropFirstShard(id.value) + "/") else None)
  }

  /** The train plan, position by position. */
  lemma SpecItemsLayout(hypertune: bool)
    ensures var items := SpecItems(hypertune);
            && |items| == (if hypertune then 7 else 5)
            && items[0] == "scaleTier" && items[1] == "region" && items[2] == "modelDir"
            && items[3] == "args" && items[4] == "trainFiles"
            && (hypertune ==> items[5] == "hyperparameters" && items[6] == "hypertuneLoss")
            && Distinct(items)
  {
  }

  /**
   * Where a successful spec's general keys come from when the caller left them out:
   * `scaleTier` and `region` from the globals, `modelDir` from `MODEL_BUCKET_ADDRESS`.
   */
  lemma TrainSpecsGlobals(entries: map<string, Value>, cfg: Config, algorithm: string, hypertune: bool)
    requires Fill(SpecItems(hypertune), TrainLayers, entries, cfg, algorithm).error.None?
    ensures var e := Fill(SpecItems(hypertune), TrainLayers, entries, cfg, algorithm).entries;
            && "scaleTier" in e && "region" in e && "modelDir" in e
            && ("scaleTier" !in entries ==> "scaleTier" in cfg.globals && e["scaleTier"] == cfg.globals["scaleTier"])
            && ("region" !in entries ==> "region" in cfg.globals && e["region"] == cfg.globals["region"])
            && ("modelDir" !in entries ==> "MODEL_BUCKET_ADDRESS" in cfg.globals
                                           && e["modelDir"] == cfg.globals["MODEL_BUCKET_ADDRESS"])
  {
    var items := SpecItems(hypertune);
    SpecItemsLayout(hypertune);
    TrainOrigins();
    if "scaleTier" !in entries { FillFromGlobal(items, TrainLayers, entries, cfg, algorithm, 0, "scaleTier"); }
    if "region" !in entries { FillFromGlobal(items, TrainLayers, entries, cfg, algorithm, 1, "region"); }
    if "modelDir" !in entries { FillFromGlobal(items, TrainLayers, entries, cfg, algorithm, 2, "MODEL_BUCKET_ADDRESS"); }
  }

  /** A successful spec's missing `args` and `trainFiles` come from the algorithm's defaults. */
  lemma TrainSpecsAlgorithmDefaults(entries: map<string, Value>, cfg: Config, algorithm: string, hypertune: bool)
    requires Fill(SpecItems(hypertune), TrainLayers, entries, cfg, algorithm).error.None?
    ensures var e := Fill(SpecItems(hypertune), TrainLayers, entries, cfg, algorithm).entries;
            && "args" in e && "trainFiles" in e
            && ("args" !in entries ==> algorithm in cfg.defaults && Get(cfg.defaults[algorithm], "args") == Ok(e["args"]))
            && ("trainFiles" !in entries ==> algorithm in cfg.defaults
                                             && Get(cfg.defaults[algorithm], "trainFiles") == Ok(e["trainFiles"]))
  {
    var items := SpecItems(hypertune);
    SpecItemsLayout(hypertune);
    TrainOrigins();
    if "args" !in entries { FillFromDefault(items, TrainLayers, entries, cfg, algorithm, 3); }
    if "trainFiles" !in entries { FillFromDefault(items, TrainLayers, entries, cfg, algorithm, 4); }
  }

  /**
   * How the train chain classifies each key of its plan: `modelDir` is read from
   * `MODEL_BUCKET_ADDRESS`, and the two hyper-tune keys have branches of their own.
   */
  lemma TrainOrigins()
    ensures OriginOf("scaleTier", TrainLayers) == Ok(Global("scaleTier"))
    ensures OriginOf("region", TrainLayers) == Ok(Global("region"))
    ensures OriginOf("modelDir", TrainLayers) == Ok(Global("MODEL_BUCKET_ADDRESS"))
    ensures OriginOf("args", TrainLayers) == Ok(Default) && OriginOf("trainFiles", TrainLayers) == Ok(Default)
    ensures OriginOf("hyperparameters", TrainLayers) == Ok(Hyper)
    ensures OriginOf("hypertuneLoss", TrainLayers) == Ok(MetricTag)
  {
    assert "scaleTier" in GlobalArgs && "region" in GlobalArgs && "modelDir" in GlobalArgs;
    assert "args" !in GlobalArgs && "trainFiles" !in GlobalArgs;
    assert "hyperparameters" !in GlobalArgs && "hyperparameters" !in DefaultArgs;
    assert "hypertuneLoss" !in GlobalArgs && "hypertuneLoss" !in DefaultArgs;
  }

  /** When tuning, a successful spec's missing `hyperparameters` is the algorithm's template. */
  lemma TrainSpecsHyper(entries: map<string, Value>, cfg: Config, algorithm: string)
    requires Fill(SpecItems(true), TrainLayers, entries, cfg, algorithm).error.None?
    ensures var e := Fill(SpecItems(true), TrainLayers, entries, cfg, algorithm).entries;
            && "hyperparameters" in e
            && ("hyperparameters" !in entries ==> algorithm in cfg.hyper && e["hyperparameters"] == cfg.hyper[algorithm])
  {
    var items := SpecItems(true);
    SpecItemsLayout(true);
    TrainOrigins();
    if "hyperparameters" !in entries {
      FillFromHyper(items, TrainLayers, entries, cfg, algorithm, 5);
    }
  }

  /**
   * When tuning, a successful spec's missing `hypertuneLoss` is the metric tag of the spec's
   * hyperparameters, explicit or filled in.
   */
  lemma TrainSpecsLoss(entries: map<string, Value>, cfg: Config, algorithm: string)
    requires Fill(SpecItems(true), TrainLayers, entries, cfg, algorithm).error.None?
    ensures var e := Fill(SpecItems(true), TrainLayers, entries, cfg, algorithm).entries;
            && "hyperparameters" in e && "hypertuneLoss" in e
            && ("hypertuneLoss" !in entries ==>
                  Get(e["hyperparameters"], "hyperparameterMetricTag") == Ok(e["hypertuneLoss"]))
  {
    var items := SpecItems(true);
    SpecItemsLayout(true);
    TrainOrigins();
    if "hypertuneLoss" !in entries {
      assert forall j :: 0 <= j < 6 ==> items[j] != "hypertuneLoss";
      FillMetricTag(items, TrainLayers, entries, cfg, algorithm, 5, 6);
    }
  }

  /**
   * With `append_job_id`, a successful spec's `modelDir` is the filled directory followed by
   * the job id without its `train` shard and a `/`; without it the directory is the filled one.
   */
  lemma TrainSpecsModelDir(entries: map<string, Value>, cfg: Config, algorithm: string, hypertune: bool,
                           appendJobId: bool, requestIds: Value, t: Timestamp)
    requires TrainSpecs(entries, cfg, algorithm, hypertune, appendJobId, requestIds, t).jobId.Ok?
    ensures var filled := Fill(SpecItems(hypertune), TrainLayers, entries, cfg, algorithm).entries;
            var r := TrainSpecs(entries, cfg, algorithm, hypertune, appendJobId, requestIds, t);
            && r.jobId == PkgJobName("train", requestIds, t, algorithm)
            && "modelDir" in filled && "modelDir" in r.entries
            && (appendJobId ==> filled["modelDir"].Str?
                                && r.entries["modelDir"] == Str(filled["modelDir"].s + (DropFirstShard(r.jobId.value) + "/")))
            && (!appendJobId ==> r.entries["modelDir"] == filled["modelDir"])
  {
    SpecItemsLayout(hypertune);
  }

  /** Without request ids (the package `train` wrapper passes none) a filled spec raises TypeError. */
  lemma TrainSpecsWithoutRequestIds(entries: map<string, Value>, cfg: Config, algorithm: string, hypertune: bool,
                                    appendJobId: bool, t: Timestamp)
    requires Fill(SpecItems(hypertune), TrainLayers, entries, cfg, algorithm).error.None?
    ensures TrainSpecs(entries, cfg, algorithm, hypertune, appendJobId, Null, t).jobId == Err(TypeError)
  {
  }

  /** `TrainJobSpecHandler`: its configuration, algorithm and the caller's inputs dict, and the specs it built. */
  class TrainJobSpecHandler {
    const cfg: Config
    const algorithm: string
    const inputs: PyDict
    const appendJobId: bool
    const requestIds: Value
    const hypertune: bool
    var jobSpecs: Option<JobSpec>

    constructor (cfg: Config, algorithm: string, inputs: PyDict, appendJobId: bool, requestIds: Value, hypertune: bool)
      ensures this.cfg == cfg && this.algorithm == algorithm && this.inputs == inputs
      ensures this.appendJobId == appendJobId && this.requestIds == requestIds && this.hypertune == hypertune
      ensures jobSpecs.None?
    {
      this.cfg := cfg;
      this.algorithm := algorithm;
      this.inputs := inputs;
      this.appendJobId := appendJobId;
      this.requestIds := requestIds;
      this.hypertune := hypertune;
      jobSpecs := None;
    }

    /** `create_job_specs()`: fills the shared inputs and sets `job_specs`, or raises. */
    method CreateJobSpecs(t: Timestamp) returns (err: Option<Error>)
      modifies this, inputs
      ensures var r := TrainSpecs(old(inputs.entries), cfg, algorithm, hypertune, appendJobId, requestIds, t);
              && inputs.entries == r.entries
              && (r.jobId.Ok? ==> err.None? && jobSpecs == Some(JobSpec(r.jobId.value, inputs)))
              && (r.jobId.Err? ==> err == Some(r.jobId.error) && jobSpecs == old(jobSpecs))
    {
      err := FillInputs(inputs, SpecItems(hypertune), TrainLayers, cfg, algorithm);
      if err.Some? {
        return;
      }
      var id := PkgJobName("train", requestIds, t, algorithm);
      if id.Err? {
        return Some(id.error);
      }
      if appendJobId {
        var suffixed := AppendToModelDir(inputs.entries, DropFirstShard(id.value) + "/");
        if suffixed.Err? {
          return Some(suffixed.error);
        }
        inputs.entries := suffixed.value;
      }
      jobSpecs := Some(JobSpec(id.value, inputs));
    }
  }

  /**
   * `TrainJobSpecHandler(...)`: the base constructor reads `PROJECT_ID`, then stores the algorithm's first image in the
   * caller's inputs, or raises ValueError for an algorithm missing from `ATOMS`.
   */
  method NewTrainJobSpecHandler(deployment: map<string, Value>, cfg: Config, algorithm: string, inputs: PyDict,
                                appendJobId: bool, requestIds: Value, hypertune: bool)
    returns (r: Result<TrainJobSpecHandler>)
    modifies inputs
    ensures var image := RegistryImage(deployment, "ATOMS", algorithm, Some(0));
            && ("PROJECT_ID" !in cfg.globals ==> r == Err(KeyError) && inputs.entries == old(inputs.entries))
            && ("PROJECT_ID" in cfg.globals && image.Err? ==> r == Err(image.error) && inputs.entries == old(inputs.entries))
            && ("PROJECT_ID" in cfg.globals && image.Ok? ==>
                  r.Ok? && fresh(r.value) && inputs.entries == old(inputs.entries)["imageUri" := image.value]
                  && r.value.inputs == inputs && r.value.algorithm == algorithm && r.value.cfg == cfg
                  && r.value.appendJobId == appendJobId && r.value.requestIds == requestIds
                  && r.value.hypertune == hypertune && r.value.jobSpecs.None?)
  {
    if "PROJECT_ID" !in cfg.globals {
      return Err(KeyError);
    }
    var image := RegistryImage(deployment, "ATOMS", algorithm, Some(0));
    if image.Err? {
      return Err(image.error);
    }
    inputs.entries := inputs.entries["imageUri" := image.value];
    var handler := new TrainJobSpecHandler(cfg, algorithm, inputs, appendJobId, requestIds, hypertune);
    return Ok(handler);
  }
}
