/**
 * predict.py at the repository root: the score spec handler fills the caller's inputs with
 * the score keys and names the job `score_...` (no model directory is involved), and the
 * score job handler submits through gcloud with a command whose user flags are the four
 * score keys. The preprocess job handler of preprocess.py builds the very same command.
 */
module RootPredict {
  import opened Results
  import opened PyStr
  import opened Values
  import opened Utils
  import opened JobNames
  import opened SpecDefaults
  import opened ArgTranslation

  const GlobalArgs: seq<string> := ["scaleTier", "region"]
  const DefaultArgs: seq<string> := ["modelFile", "scoreDir", "outputDir", "useProba"]

  /** The fill loop's chain: two globals, four per-algorithm defaults, no hyper-tune branch. */
  const ScoreLayers: Layers := Layers(GlobalArgs, DefaultArgs, false, false, false)

  /** `spec_full_args` */
  const SpecItems: seq<string> := GlobalArgs + DefaultArgs

  // ---------------------------------------------------------------- ScoreJobSpecHandler

  /** `create_job_specs` of the score spec handler: fill, then name the job. */
  function ScoreSpecs(entries: map<string, Value>, cfg: Config, algorithm: string, t: Timestamp): (r: SpecsOutcome)
    ensures forall k :: k in entries ==> k in r.entries && r.entries[k] == entries[k]
    ensures "modelDir" in r.entries <==> "modelDir" in entries
    ensures r.jobId.Ok? ==> forall i :: 0 <= i < |SpecItems| ==> SpecItems[i] in r.entries
  {
    var filled := Fill(SpecItems, ScoreLayers, entries, cfg, algorithm);
    assert "modelDir" !in ItemSet(SpecItems);
    if filled.error.Some? then SpecsOutcome(filled.entries, Err(filled.error.value))
    else SpecsOutcome(filled.entries, ScoreJobName(filled.entries, algorithm, t))
  }

  /** The score plan, position by position. */
  lemma SpecItemsLayout()
    ensures SpecItems == ["scaleTier", "region", "modelFile", "scoreDir", "outputDir", "useProba"]
    ensures Distinct(SpecItems)
  {
  }

  /** How the score chain classifies each key of its plan: two globals, the rest per-algorithm defaults. */
  lemma ScoreOrigins()
    ensures OriginOf("scaleTier", ScoreLayers) == Ok(Global("scaleTier"))
    ensures OriginOf("region", ScoreLayers) == Ok(Global("region"))
    ensures forall k :: 2 <= k < 6 ==> OriginOf(SpecItems[k], ScoreLayers) == Ok(Default)
  {
    assert "scaleTier" in GlobalArgs && "region" in GlobalArgs;
    assert forall k :: 2 <= k < 6 ==> SpecItems[k] == DefaultArgs[k - 2] && SpecItems[k] !in GlobalArgs;
  }

  /** Where a successful fill's missing `scaleTier` and `region` come from: the globals. */
  lemma ScoreSpecsGlobals(entries: map<string, Value>, cfg: Config, algorithm: string)
    requires Fill(SpecItems, ScoreLayers, entries, cfg, algorithm).error.None?
    ensures var e := Fill(SpecItems, ScoreLayers, entries, cfg, algorithm).entries;
            && "scaleTier" in e && "region" in e
            && ("scaleTier" !in entries ==> "scaleTier" in cfg.globals && e["scaleTier"] == cfg.globals["scaleTier"])
            && ("region" !in entries ==> "region" in cfg.globals && e["region"] == cfg.globals["region"])
  {
    SpecItemsLayout();
    ScoreOrigins();
    if "scaleTier" !in entries { FillFromGlobal(SpecItems, ScoreLayers, entries, cfg, algorithm, 0, "scaleTier"); }
    if "region" !in entries { FillFromGlobal(SpecItems, ScoreLayers, entries, cfg, algorithm, 1, "region"); }
  }

  /** A successful fill's missing score keys come from the algorithm's defaults. */
  lemma ScoreSpecsAlgorithmDefaults(entries: map<string, Value>, cfg: Config, algorithm: string, k: nat)
    requires Fill(SpecItems, ScoreLayers, entries, cfg, algorithm).error.None?
    requires 2 <= k < 6 && SpecItems[k] !in entries
    ensures var e := Fill(SpecItems, ScoreLayers, entries, cfg, algorithm).entries;
            && algorithm in cfg.defaults && SpecItems[k] in e
            && Get(cfg.defaults[algorithm], SpecItems[k]) == Ok(e[SpecItems[k]])
  {
    SpecItemsLayout();
    ScoreOrigins();
    FillFromDefault(SpecItems, ScoreLayers, entries, cfg, algorithm, k);
  }

  /**
   * A named score job starts `score_` when the filled `scoreDir` is truthy and `scorejob_`
   * otherwise; its `_` shards are that lead, the lowercased segments 3, 4 and 6 of `scoreDir`
   * (when truthy), the stamp, the algorithm's shards and the lowercased tier's.
   */
  lemma ScoreSpecsName(entries: map<string, Value>, cfg: Config, algorithm: string, t: Timestamp)
    requires ScoreSpecs(entries, cfg, algorithm, t).jobId.Ok?
    ensures var r := ScoreSpecs(entries, cfg, algorithm, t);
            var e := r.entries;
            && "scoreDir" in e && "scaleTier" in e && e["scaleTier"].Str?
            && (Truthy(e["scoreDir"]) ==> "score_" <= r.jobId.value)
            && (!Truthy(e["scoreDir"]) ==> "scorejob_" <= r.jobId.value)
            && var tail := (Split(algorithm, '_') + Split(Lower(e["scaleTier"].s), '_'));
            && (Truthy(e["scoreDir"]) ==>
                  var S := Split(e["scoreDir"].s, '/');
                  Split(r.jobId.value, '_') == ["score"] + Split(Lower(S[3]), '_') + Split(Lower(S[4]), '_')
                                               + Split(Lower(S[6]), '_') + [Stamp(t)] + tail)
            && (!Truthy(e["scoreDir"]) ==> Split(r.jobId.value, '_') == ["scorejob", Stamp(t)] + tail)
  {
    var r := ScoreSpecs(entries, cfg, algorithm, t);
    assert SpecItems[3] == "scoreDir";
    assert r.jobId == ScoreJobName(r.entries, algorithm, t);
    ScoreJobNameShards(r.entries, algorithm, t);
    LeadLiterals();
  }

  /** `ScoreJobSpecHandler`: the configuration, the algorithm, the caller's inputs dict and the specs built. */
  class ScoreJobSpecHandler {
    const cfg: Config
    const algorithm: string
    const inputs: PyDict
    const projectId: Value
    var jobSpecs: Option<JobSpec>

    constructor (cfg: Config, algorithm: string, inputs: PyDict, projectId: Value)
      ensures this.cfg == cfg && this.algorithm == algorithm && this.inputs == inputs
      ensures this.projectId == projectId && jobSpecs.None?
    {
      this.cfg := cfg;
      this.algorithm := algorithm;
      this.inputs := inputs;
      this.projectId := projectId;
      jobSpecs := None;
    }

    /** `create_job_specs()`: fills the shared inputs and sets `job_specs`, or raises. */
    method CreateJobSpecs(t: Timestamp) returns (err: Option<Error>)
      modifies this, inputs
      ensures var r := ScoreSpecs(old(inputs.entries), cfg, algorithm, t);
              && inputs.entries == r.entries
              && (r.jobId.Ok? ==> err.None? && jobSpecs == Some(JobSpec(r.jobId.value, inputs)))
              && (r.jobId.Err? ==> err == Some(r.jobId.error) && jobSpecs == old(jobSpecs))
    {
      err := FillInputs(inputs, SpecItems, ScoreLayers, cfg, algorithm);
      if err.Some? {
        return;
      }
      var id := ScoreJobName(inputs.entries, algorithm, t);
      if id.Err? {
        return Some(id.error);
      }
      jobSpecs := Some(JobSpec(id.value, inputs));
    }
  }

  /**
   * `ScoreJobSpecHandler(...)`: stores the algorithm's first `SCORING` image in the caller's
   * inputs, or raises ValueError for an algorithm the registry does not list.
   */
  method NewScoreJobSpecHandler(deployment: map<string, Value>, cfg: Config, algorithm: string, inputs: PyDict,
                                projectId: Value) returns (r: Result<ScoreJobSpecHandler>)
    modifies inputs
    ensures var image := RegistryImage(deployment, "SCORING", algorithm, Some(0));
            && (image.Err? ==> r == Err(image.error) && inputs.entries == old(inputs.entries))
            && (image.Ok? ==> r.Ok? && fresh(r.value) && inputs.entries == old(inputs.entries)["imageUri" := image.value]
                              && r.value.inputs == inputs && r.value.algorithm == algorithm && r.value.cfg == cfg
                              && r.value.projectId == projectId && r.value.jobSpecs.None?)
  {
    var image := RegistryImage(deployment, "SCORING", algorithm, Some(0));
    if image.Err? {
      return Err(image.error);
    }
    inputs.entries := inputs.entries["imageUri" := image.value];
    var handler := new ScoreJobSpecHandler(cfg, algorithm, inputs, projectId);
    return Ok(handler);
  }

  // ---------------------------------------------------------------- the gcloud command

  const ShellPrefix: string := "export PATH=/home/vagrant/google-cloud-sdk/bin:$PATH && "
  const SubmitTraining: string := "gcloud beta ai-platform jobs submit training "

  /** The four user flags of a score command, in order, each `--name=value `. */
  function ScoreUserFlags(ti: map<string, Value>): (r: Result<seq<string>>)
    ensures r.Ok? <==> forall k :: k in DefaultArgs ==> k in ti && ti[k].Str?
    ensures StrEntry(ti, "modelFile").Err? ==> r == Err(StrEntry(ti, "modelFile").error)
    ensures StrEntry(ti, "modelFile").Ok? && StrEntry(ti, "scoreDir").Err? ==> r == Err(StrEntry(ti, "scoreDir").error)
    ensures (&& StrEntry(ti, "modelFile").Ok? && StrEntry(ti, "scoreDir").Ok? && StrEntry(ti, "outputDir").Err?)
            ==> r == Err(StrEntry(ti, "outputDir").error)
    ensures (&& StrEntry(ti, "modelFile").Ok? && StrEntry(ti, "scoreDir").Ok? && StrEntry(ti, "outputDir").Ok?
             && StrEntry(ti, "useProba").Err?) ==> r == Err(StrEntry(ti, "useProba").error)
    ensures r.Ok? ==> r.value == ["--model-file=" + ti["modelFile"].s + " ", "--score-dir=" + ti["scoreDir"].s + " ",
                                  "--output-dir=" + ti["outputDir"].s + " ", "--use-proba=" + ti["useProba"].s + " "]
  {
    var modelFile :- StrEntry(ti, "modelFile");
    var scoreDir :- StrEntry(ti, "scoreDir");
    var outputDir :- StrEntry(ti, "outputDir");
    var useProba :- StrEntry(ti, "useProba");
    Ok(["--model-file=" + modelFile + " ", "--score-dir=" + scoreDir + " ",
        "--output-dir=" + outputDir + " ", "--use-proba=" + useProba + " "])
  }

  /** `--master-machine-type <type> ` for the custom tier, nothing otherwise. */
  function MachineType(ti: map<string, Value>, tier: string): (r: Result<seq<string>>)
    ensures r.Ok? && Lower(tier) == "custom" ==> "masterType" in ti && ti["masterType"].Str?
                                                  && r.value == ["--master-machine-type " + ti["masterType"].s + " "]
    ensures Lower(tier) != "custom" ==> r == Ok([])
  {
    if Lower(tier) == "custom" then
      var machine :- StrEntry(ti, "masterType");
      Ok(["--master-machine-type " + machine + " "])
    else Ok([])
  }

  /**
   * The fields the head of a score command reads, in order: region, image, scale tier (a
   * string, to be lowercased) and, for the custom tier, the master type.
   */
  predicate ScoreHeadFields(ti: map<string, Value>)
  {
    && StrEntry(ti, "region").Ok? && StrEntry(ti, "imageUri").Ok? && "scaleTier" in ti && ti["scaleTier"].Str?
    && (Lower(ti["scaleTier"].s) == "custom" ==> StrEntry(ti, "masterType").Ok?)
  }

  /**
   * The pieces of the `_exe_job_gcloud` command of the score (and preprocess) job handler, in
   * order; the command is their concatenation. The first field that fails decides the error:
   * KeyError for a missing key, TypeError for a value that is not a string, AttributeError
   * when the scale tier cannot be lowercased.
   */
  function ScoreCommandParts(jobId: string, ti: map<string, Value>): (r: Result<seq<string>>)
    ensures r.Ok? <==> ScoreHeadFields(ti) && ScoreUserFlags(ti).Ok?
    ensures r.Ok? ==>
              var tier := Lower(ti["scaleTier"].s);
              r.value == [ShellPrefix, SubmitTraining, jobId + " ", "--region " + ti["region"].s + " ",
                          "--master-image-uri " + ti["imageUri"].s + " ", "--scale-tier " + tier + " "]
                         + (if tier == "custom" then ["--master-machine-type " + ti["masterType"].s + " "] else [])
                         + ["-- ", "--model-file=" + ti["modelFile"].s + " ", "--score-dir=" + ti["scoreDir"].s + " ",
                            "--output-dir=" + ti["outputDir"].s + " ", "--use-proba=" + ti["useProba"].s + " "]
    ensures StrEntry(ti, "region").Err? ==> r == Err(StrEntry(ti, "region").error)
    ensures StrEntry(ti, "region").Ok? && StrEntry(ti, "imageUri").Err? ==> r == Err(StrEntry(ti, "imageUri").error)
    ensures StrEntry(ti, "region").Ok? && StrEntry(ti, "imageUri").Ok? && "scaleTier" !in ti ==> r == Err(KeyError)
    ensures (&& StrEntry(ti, "region").Ok? && StrEntry(ti, "imageUri").Ok? && "scaleTier" in ti
             && !ti["scaleTier"].Str?) ==> r == Err(AttributeError)
    ensures (&& StrEntry(ti, "region").Ok? && StrEntry(ti, "imageUri").Ok? && "scaleTier" in ti && ti["scaleTier"].Str?
             && Lower(ti["scaleTier"].s) == "custom" && StrEntry(ti, "masterType").Err?)
            ==> r == Err(StrEntry(ti, "masterType").error)
    ensures ScoreHeadFields(ti) && ScoreUserFlags(ti).Err? ==> r == Err(ScoreUserFlags(ti).error)
  {
    var region :- StrEntry(ti, "region");
    var image :- StrEntry(ti, "imageUri");
    var tierValue :- Lookup(ti, "scaleTier");
    var tier :- StrReceiver(tierValue);
    var machine :- MachineType(ti, tier);
    var flags :- ScoreUserFlags(ti);
    var head := [ShellPrefix, SubmitTraining, jobId + " ", "--region " + region + " ", "--master-image-uri " + image + " ",
                 "--scale-tier " + Lower(tier) + " "];
    Ok(head + machine + ["-- "] + flags)
  }

  /** The command string handed to the shell. */
  function ScoreCommand(jobId: string, ti: map<string, Value>): (r: Result<string>)
    ensures r.Ok? <==> ScoreCommandParts(jobId, ti).Ok?
    ensures r.Ok? ==> r.value == Join(ScoreCommandParts(jobId, ti).value, "")
  {
    var parts :- ScoreCommandParts(jobId, ti);
    Ok(Join(parts, ""))
  }

  // ---------------------------------------------------------------- create_job_request

  /** The pairs `create_job_request` puts in a fresh args list, popping their keys. */
  const ScoreFlags: seq<(string, string)> :=
    [("--model-file", "modelFile"), ("--score-dir", "scoreDir"), ("--output-dir", "outputDir"), ("--use-proba", "useProba")]

  /** The score flags pop distinct keys, exactly the four per-algorithm defaults. */
  lemma ScoreFlagsWellFormed()
    ensures WellFormedFlags(ScoreFlags)
    ensures forall k :: k in DefaultArgs ==> k in FlagKeys(ScoreFlags)
  {
    assert ScoreFlags[0].1 in FlagKeys(ScoreFlags) && ScoreFlags[1].1 in FlagKeys(ScoreFlags);
    assert ScoreFlags[2].1 in FlagKeys(ScoreFlags) && ScoreFlags[3].1 in FlagKeys(ScoreFlags);
  }

  /** The score flags find their keys exactly when the four defaults are present, and then append eight values. */
  lemma {:induction false} ScoreFlagPairs(ti: map<string, Value>)
    ensures (forall i :: 0 <= i < |ScoreFlags| ==> ScoreFlags[i].1 in ti) <==> (forall k :: k in DefaultArgs ==> k in ti)
    ensures (forall k :: k in DefaultArgs ==> k in ti) ==>
              FlagPairs(ti, ScoreFlags) == [Str("--model-file"), ti["modelFile"], Str("--score-dir"), ti["scoreDir"],
                                            Str("--output-dir"), ti["outputDir"], Str("--use-proba"), ti["useProba"]]
  {
    var flags := ScoreFlags;
    assert flags[0].1 == "modelFile" && flags[1].1 == "scoreDir" && flags[2].1 == "outputDir" && flags[3].1 == "useProba";
    if forall k :: k in DefaultArgs ==> k in ti {
      assert flags[3..][1..] == [];
      assert flags[2..][1..] == flags[3..];
      assert flags[1..][1..] == flags[2..];
      assert FlagPairs(ti, flags[3..]) == [Str("--use-proba"), ti["useProba"]];
    }
  }

  /**
   * The rewrite `create_job_request` performs on a spec's `trainingInput` succeeds exactly when
   * the image and the four score keys are present; it then holds the image under
   * `masterConfig` and exactly the eight flag/value args (any user args are discarded), and the
   * four keys are popped.
   */
  lemma ScoreRequestSpec(ti: map<string, Value>)
    ensures var r := Translate(ti, FreshArgs, ScoreFlags);
            r.error.None? <==> "imageUri" in ti && forall k :: k in DefaultArgs ==> k in ti
    ensures var r := Translate(ti, FreshArgs, ScoreFlags);
            r.error.None? ==>
              && "imageUri" !in r.entries && (forall k :: k in DefaultArgs ==> k !in r.entries)
              && "masterConfig" in r.entries && r.entries["masterConfig"] == Dict(map["imageUri" := ti["imageUri"]])
              && "args" in r.entries
              && r.entries["args"] == List([Str("--model-file"), ti["modelFile"], Str("--score-dir"), ti["scoreDir"],
                                            Str("--output-dir"), ti["outputDir"], Str("--use-proba"), ti["useProba"]])
  {
    ScoreFlagsWellFormed();
    TranslateSpec(ti, FreshArgs, ScoreFlags);
    ScoreFlagPairs(ti);
  }
}
