/**
 * The stage functions of gcpaiutils/wrappers.py, as far as they build inputs, check the
 * submission, poll and judge the polled states. The remote calls are oracles: the outcome of
 * `request.execute()` for a submission and the script of fetch results for `poll`. The score
 * and pre-processing handlers those stages use are not part of this model, so for `score`,
 * `score_new` and `data_evaluation` the submitted job ids and acceptance flags are inputs.
 */
module PkgWrappers {
  import opened Results
  import opened PyStr
  import opened Values
  import opened Utils
  import opened JobNames
  import opened SpecDefaults
  import opened Monitor
  import PkgTrain
  import PkgPostprocess
  import PkgHandler

  /** How a stage function ends: with the value it pushes, with an exception, or still polling when the script ran out. */
  datatype StageResult<T> = Done(value: T) | Threw(error: Error) | Unfinished

  // ---------------------------------------------------------------- submit, poll, assess

  /**
   * The tail shared by `train`, `train_new`, `score_new`, `aggregate_new` and
   * `data_evaluation`: ValueError unless the handler's `success` is True, then `poll` over
   * the submitted jobs, then `get_job_assessment` of the states.
   */
  function Assessed(success: Option<bool>, jobs: seq<string>, script: seq<Fetch>): (r: StageResult<seq<string>>)
    ensures success != Some(true) ==> r == Threw(ValueError)
    ensures r.Done? ==> success == Some(true) && PollSpec(jobs, script).Finished?
    ensures r.Done? ==> forall j :: j in jobs ==> j in PollSpec(jobs, script).status.states
                                                  && PollSpec(jobs, script).status.states[j] == Succeeded
    ensures r.Done? ==> forall x :: x in r.value <==> x in jobs
    ensures r.Threw? && success == Some(true) && PollSpec(jobs, script).Finished? ==>
              r.error == ValueError && exists j :: j in jobs && j in PollSpec(jobs, script).status.states
                                                    && PollSpec(jobs, script).status.states[j] == Failed
  {
    if success != Some(true) then Threw(ValueError)
    else match PollSpec(jobs, script)
      case Raised(e) => Threw(e)
      case OutOfScript => Unfinished
      case Finished(status) =>
        PollFinished(jobs, script, 0, None);
        match JobAssessment(status)
        case Ok(succeeded) => Done(succeeded)
        case Err(e) => Threw(e)
  }

  // ---------------------------------------------------------------- score status

  /**
   * The loop over the polled states in `score`: each SUCCEEDED score job is mapped to its train
   * job, any other state raises ValueError, and a score job the submissions do not know
   * raises KeyError.
   */
  function ScoreStatus(keys: seq<string>, states: map<string, string>, submitted: map<string, string>,
                       acc: StateMap): (r: Result<StateMap>)
    requires forall k :: k in keys ==> k in states
    requires acc.Valid()
    ensures r.Ok? ==> r.value.Valid()
    decreases |keys|
  {
    if keys == [] then Ok(acc)
    else if states[keys[0]] != Succeeded then Err(ValueError)
    else if keys[0] !in submitted then Err(KeyError)
    else ScoreStatus(keys[1..], states, submitted, acc.Put(keys[0], submitted[keys[0]]))
  }

  /**
   * With every polled job among the submissions, the score check passes exactly when every
   * state is SUCCEEDED, and then maps each job, and only those, to its train job.
   */
  lemma {:induction false} ScoreStatusSpec(keys: seq<string>, states: map<string, string>,
                                           submitted: map<string, string>, acc: StateMap)
    requires forall k :: k in keys ==> k in states && k in submitted
    requires acc.Valid()
    ensures ScoreStatus(keys, states, submitted, acc).Ok? <==> forall k :: k in keys ==> states[k] == Succeeded
    ensures ScoreStatus(keys, states, submitted, acc).Err? ==> ScoreStatus(keys, states, submitted, acc).error == ValueError
    ensures var r := ScoreStatus(keys, states, submitted, acc);
            r.Ok? ==> && (forall k :: k in r.value.states <==> k in acc.states || k in keys)
                      && (forall k :: k in keys ==> r.value.states[k] == submitted[k])
                      && (forall k :: k in acc.states && k !in keys ==> r.value.states[k] == acc.states[k])
    decreases |keys|
  {
    if keys != [] {
      assert keys[0] in keys;
      assert forall k :: k in keys[1..] ==> k in keys;
      ScoreStatusSpec(keys[1..], states, submitted, acc.Put(keys[0], submitted[keys[0]]));
      assert forall k :: k in keys ==> k == keys[0] || k in keys[1..];
    }
  }

  /** A passing score check over exactly the submitted jobs hands on the submissions unchanged. */
  lemma ScoreStatusKeepsSubmissions(status: StateMap, submitted: StateMap)
    requires status.Valid() && submitted.Valid()
    requires forall k :: k in status.states <==> k in submitted.keys
    requires ScoreStatus(status.keys, status.states, submitted.states, EmptyStates).Ok?
    ensures ScoreStatus(status.keys, status.states, submitted.states, EmptyStates).value.states == submitted.states
  {
    ScoreStatusSpec(status.keys, status.states, submitted.states, EmptyStates);
    var r := ScoreStatus(status.keys, status.states, submitted.states, EmptyStates).value.states;
    assert forall k :: k in r <==> k in status.keys;
    assert forall k :: k in status.keys <==> k in submitted.states;
    assert forall k :: k in r ==> r[k] == submitted.states[k];
  }

  /** The status loop of `score` over the states `poll` returned, in their order. */
  method CheckScored(status: StateMap, submitted: map<string, string>) returns (r: Result<StateMap>)
    requires status.Valid()
    ensures r == ScoreStatus(status.keys, status.states, submitted, EmptyStates)
  {
    var successful := EmptyStates;
    var i := 0;
    while i < |status.keys|
      invariant 0 <= i <= |status.keys| && successful.Valid()
      invariant ScoreStatus(status.keys, status.states, submitted, EmptyStates)
                == ScoreStatus(status.keys[i..], status.states, submitted, successful)
    {
      assert status.keys[i..][1..] == status.keys[i + 1..];
      var job := status.keys[i];
      if status.states[job] != Succeeded {
        return Err(ValueError);
      }
      if job !in submitted {
        return Err(KeyError);
      }
      successful := successful.Put(job, submitted[job]);
      i := i + 1;
    }
    return Ok(successful);
  }

  // ---------------------------------------------------------------- the algorithm of a model path

  /** `model_path.split("/")[0]`: the train job directory a model path starts with. */
  function TrainJobOfModelPath(modelPath: string): (r: string)
    ensures '/' !in r
  {
    var parts := Split(modelPath, '/');
    SplitPiecesFree(modelPath, '/');
    parts[0]
  }

  /** The algorithm `score` and `score_new` hand to the score spec handler, as written: shards [4:-1]. */
  function ScoreAlgorithmAsWritten(modelPath: string): string
  {
    Join(Slice(Split(TrainJobOfModelPath(modelPath), '_'), 4, -1), "_")
  }

  /** The algorithm of a package train directory: every shard after the user, problem, version and stamp. */
  function ScoreAlgorithm(modelPath: string): string
  {
    var shards := Split(TrainJobOfModelPath(modelPath), '_');
    if |shards| <= 4 then "" else Join(shards[4..], "_")
  }

  /** `user_problem_version_stamp_algorithm`: the directory a package train job writes under. */
  function TrainDir(user: string, problem: string, version: string, t: Timestamp, algorithm: string): string
  {
    Join([Clean(user), Clean(problem), Clean(version), Stamp(t)] + Split(algorithm, '_'), "_")
  }

  /**
   * A train directory holds no `/`, and its `_` shards are the ids, the stamp and the algorithm's shards.
   * Proof aid.
   */
  lemma TrainDirShards(user: string, problem: string, version: string, t: Timestamp, algorithm: string)
    requires '_' !in user && '_' !in problem && '_' !in version
    requires '/' !in user && '/' !in problem && '/' !in version && '/' !in algorithm
    ensures '/' !in TrainDir(user, problem, version, t, algorithm)
    ensures Split(TrainDir(user, problem, version, t, algorithm), '_')
            == [Clean(user), Clean(problem), Clean(version), Stamp(t)] + Split(algorithm, '_')
  {
    var pieces := Split(algorithm, '_');
    var rest := [Clean(user), Clean(problem), Clean(version), Stamp(t)] + pieces;
    SplitPiecesFree(algorithm, '_');
    PiecesWithin(algorithm, '_', '/');
    StampSeparatorFree(t);
    assert forall i :: 0 <= i < |rest| ==> '_' !in rest[i] && '/' !in rest[i];
    JoinFree(rest, "_", '/');
    SplitJoin(rest, '_');
  }

  /** The first `/` segment of `dir/file` is `dir` for a directory without `/`. Proof aid. */
  lemma FirstSegment(dir: string, file: string)
    requires '/' !in dir
    ensures TrainJobOfModelPath(dir + "/" + file) == dir
  {
    SplitConcat(dir, file, '/');
    assert dir + "/" + file == dir + ['/'] + file;
  }

  /**
   * The corrected slice recovers the algorithm of the package train job a model belongs to,
   * whatever the model file is called; the train job's directory is its id without the
   * `train` shard.
   */
  lemma ScoreAlgorithmRoundTrip(user: string, problem: string, version: string, t: Timestamp, algorithm: string,
                                file: string)
    requires '_' !in user && '_' !in problem && '_' !in version
    requires '/' !in user && '/' !in problem && '/' !in version && '/' !in algorithm
    ensures var ids := Dict(map["user" := Str(user), "problem" := Str(problem), "version" := Str(version)]);
            && PkgJobName("train", ids, t, algorithm).Ok?
            && DropFirstShard(PkgJobName("train", ids, t, algorithm).value) == TrainDir(user, problem, version, t, algorithm)
    ensures var dir := TrainDir(user, problem, version, t, algorithm);
            && TrainJobOfModelPath(dir + "/" + file) == dir
            && ScoreAlgorithm(dir + "/" + file) == algorithm
  {
    PkgJobNameDropPrefix("train", user, problem, version, t, algorithm);
    var dir := TrainDir(user, problem, version, t, algorithm);
    TrainDirShards(user, problem, version, t, algorithm);
    FirstSegment(dir, file);
    var rest := [Clean(user), Clean(problem), Clean(version), Stamp(t)] + Split(algorithm, '_');
    assert rest[4..] == Split(algorithm, '_');
    JoinSplit(algorithm, '_');
  }

  /**
   * As written, the slice [4:-1] drops the last shard of the algorithm; an algorithm without
   * `_` (such as `aggregator`) comes back empty.
   */
  lemma ScoreAlgorithmAsWrittenDropsLastShard(user: string, problem: string, version: string, t: Timestamp,
                                              algorithm: string, file: string)
    requires '_' !in user && '_' !in problem && '_' !in version
    requires '/' !in user && '/' !in problem && '/' !in version && '/' !in algorithm
    ensures var dir := TrainDir(user, problem, version, t, algorithm);
            var pieces := Split(algorithm, '_');
            && ScoreAlgorithmAsWritten(dir + "/" + file) == Join(pieces[..|pieces| - 1], "_")
            && ('_' !in algorithm ==> ScoreAlgorithmAsWritten(dir + "/" + file) == "")
  {
    var dir := TrainDir(user, problem, version, t, algorithm);
    TrainDirShards(user, problem, version, t, algorithm);
    FirstSegment(dir, file);
    var pieces := Split(algorithm, '_');
    SliceOfShards([Clean(user), Clean(problem), Clean(version), Stamp(t)], pieces);
    SplitSingle(algorithm, '_');
  }

  /** The slice [4:-1] of four shards followed by at least one more is all of those but the last. Proof aid. */
  lemma SliceOfShards(head: seq<string>, pieces: seq<string>)
    requires |head| == 4 && |pieces| >= 1
    ensures Slice(head + pieces, 4, -1) == pieces[..|pieces| - 1]
  {
    var rest := head + pieces;
    InnerShards(rest);
    if |rest| > 5 {
      assert rest[4..|rest| - 1] == pieces[..|pieces| - 1];
    }
  }

  /**
   * What `score` and `score_new` derive from one selected info file before submitting: the
   * algorithm for the score spec handler (with the corrected slice) and the train job the
   * score job answers for; ValueError when the info name has no `info` shard.
   */
  function ScorePlan(info: string): (r: Result<(string, string)>)
    ensures r.Ok? <==> ModelPathFromInfoPath(info).Ok?
    ensures r.Ok? ==> r.value.1 == TrainJobOfModelPath(ModelPathFromInfoPath(info).value)
                      && r.value.0 == ScoreAlgorithm(ModelPathFromInfoPath(info).value)
  {
    var modelPath :- ModelPathFromInfoPath(info);
    Ok((ScoreAlgorithm(modelPath), TrainJobOfModelPath(modelPath)))
  }

  // ---------------------------------------------------------------- the polled tail of a stage

  /** `poll` over the submitted jobs, then `get_job_assessment`, once every submission was accepted. */
  method AssessJobs(jobs: seq<string>, script: seq<Fetch>) returns (r: StageResult<seq<string>>)
    ensures r == Assessed(Some(true), jobs, script)
  {
    var polled := Poll(jobs, script);
    match polled
    case Raised(e) =>
      r := Threw(e);
    case OutOfScript =>
      r := Unfinished;
    case Finished(status) =>
      PollFinished(jobs, script, 0, None);
      var assessment := JobAssessment(status);
      r := if assessment.Ok? then Done(assessment.value) else Threw(assessment.error);
  }

  /**
   * The tail of a stage that submits one job: the exception raised while building or
   * submitting it, else ValueError unless it was accepted, else poll it and assess.
   */
  function OneJobTail(submission: Result<(string, Option<bool>)>, script: seq<Fetch>): (r: StageResult<seq<string>>)
    ensures submission.Err? ==> r == Threw(submission.error)
    ensures r.Done? ==> submission.Ok? && submission.value.1 == Some(true)
  {
    match submission
    case Err(e) => Threw(e)
    case Ok((id, success)) => Assessed(success, [id], script)
  }

  /** `if T.success: submitted.append(job_id) else: raise ValueError`, then poll and assess. */
  method CheckAndPoll(submission: Result<(string, Option<bool>)>, script: seq<Fetch>) returns (r: StageResult<seq<string>>)
    ensures r == OneJobTail(submission, script)
  {
    if submission.Err? {
      return Threw(submission.error);
    }
    var submitted: seq<string> := [];
    if submission.value.1 == Some(true) {
      submitted := submitted + [submission.value.0];
    } else {
      return Threw(ValueError);
    }
    assert submitted == [submission.value.0];
    r := AssessJobs(submitted, script);
  }

  /**
   * What a fresh 'mlapi' job handler does with a built spec: the exception `submit_job`
   * raises, or the `success` flag it leaves.
   */
  function FreshSubmission(stage: PkgHandler.Stage, entries: map<string, Value>, outcome: ExecOutcome): (r: Result<Option<bool>>)
    ensures r == Ok(Some(true)) <==> outcome.Returned? && PkgHandler.Translation(stage, false, Some(entries)).1.error.None?
    ensures r.Ok? && r.value != Some(true) ==> outcome.HttpFailure? && r.value == Some(false)
    ensures r.Err? ==> var translated := PkgHandler.Translation(stage, false, Some(entries)).1.error;
                       || (translated.Some? && r.error == translated.value)
                       || (translated.None? && outcome.OtherFailure? && r.error == RemoteError)
  {
    PkgHandler.FreshSubmitSuccess(Mlapi, stage, Some(entries), outcome);
    var sub := PkgHandler.SubmitOutcome(Mlapi, PkgHandler.Translation(stage, false, Some(entries)).1.error, outcome, None);
    if sub.error.Some? then Err(sub.error.value) else Ok(sub.success)
  }

  /** The request ids the `_new` stages hand to their spec handlers. */
  function RequestIds(user: Value, problem: Value, version: Value): Value
  {
    Dict(map["user" := user, "problem" := problem, "version" := version])
  }

  /** `"gs://{MODEL_BUCKET_NAME}/{user}/{problem}/{version}/" + leaf`; KeyError without the bucket. */
  function BucketPath(globals: map<string, Value>, user: Value, problem: Value, version: Value, leaf: string)
    : (r: Result<string>)
    ensures r.Ok? <==> "MODEL_BUCKET_NAME" in globals
    ensures r.Err? ==> r.error == KeyError
  {
    var bucket :- Lookup(globals, "MODEL_BUCKET_NAME");
    Ok("gs://" + ToStr(bucket) + "/" + ToStr(user) + "/" + ToStr(problem) + "/" + ToStr(version) + "/" + leaf)
  }

  /**
   * The hyper-tuning entries of a train stage: none without a hyperspace, otherwise the atom's
   * hyperspace and its metric tag (KeyError or TypeError when either lookup fails).
   */
  function HyperEntries(entries: map<string, Value>, atom: string, hyperspace: Value): (r: Result<map<string, Value>>)
    ensures hyperspace.Null? ==> r == Ok(entries)
    ensures r.Ok? && !hyperspace.Null? ==>
              && Get(hyperspace, atom).Ok? && Get(Get(hyperspace, atom).value, "hyperparameterMetricTag").Ok?
              && r.value == entries["hyperparameters" := Get(hyperspace, atom).value]
                                   ["hypertuneLoss" := Get(Get(hyperspace, atom).value, "hyperparameterMetricTag").value]
              && Get(r.value["hyperparameters"], "hyperparameterMetricTag") == Ok(r.value["hypertuneLoss"])
  {
    if hyperspace.Null? then Ok(entries)
    else
      var h :- Get(hyperspace, atom);
      var tag :- Get(h, "hyperparameterMetricTag");
      Ok(entries["hyperparameters" := h]["hypertuneLoss" := tag])
  }

  // ---------------------------------------------------------------- train_new

  /**
   * The train inputs `train_new` builds: KeyError without `MODEL_BUCKET_NAME`, then the
   * hardware configuration for the data size, then the hyperspace entries.
   */
  function TrainNewInputs(globals: map<string, Value>, atom: string, hyperspace: Value, user: Value, problem: Value,
                          version: Value, trainFiles: Value, dataSize: real): (r: Result<map<string, Value>>)
  {
    var modelDir :- BucketPath(globals, user, problem, version, "MODELS/");
    var entries := map["trainFiles" := trainFiles, "modelDir" := Str(modelDir), "scaleTier" := Str("CUSTOM")];
    var machine :- HardwareConfig(atom, dataSize);
    HyperEntries(entries["masterType" := Str(machine)], atom, hyperspace)
  }

  /**
   * The spec handler of a train stage, from its constructor through `create_job_specs`: the
   * job id and the spec, or the exception raised on the way.
   */
  function BuiltTrainSpec(deployment: map<string, Value>, cfg: Config, atom: string, entries: map<string, Value>,
                          requestIds: Value, hypertune: bool, t: Timestamp): (r: Result<(string, map<string, Value>)>)
    ensures r.Ok? ==> Ok(r.value.0) == PkgJobName("train", requestIds, t, atom)
    ensures "PROJECT_ID" !in cfg.globals ==> r == Err(KeyError)
  {
    if "PROJECT_ID" !in cfg.globals then Err(KeyError)
    else
      var image :- RegistryImage(deployment, "ATOMS", atom, Some(0));
      var specs := PkgTrain.TrainSpecs(entries["imageUri" := image], cfg, atom, hypertune, true, requestIds, t);
      var id :- specs.jobId;
      PkgTrain.TrainSpecsModelDir(entries["imageUri" := image], cfg, atom, hypertune, true, requestIds, t);
      Ok((id, specs.entries))
  }

  /**
   * `train_new` reads `MODEL_BUCKET_NAME` first, then sizes the machine; a successful build
   * holds the train files, the bucket's MODELS directory, the CUSTOM tier and the sized
   * machine, plus the two hyper-tuning keys exactly when a hyperspace is given.
   */
  lemma TrainNewInputsSpec(globals: map<string, Value>, atom: string, hyperspace: Value, user: Value, problem: Value,
                           version: Value, trainFiles: Value, dataSize: real)
    ensures var r := TrainNewInputs(globals, atom, hyperspace, user, problem, version, trainFiles, dataSize);
            && ("MODEL_BUCKET_NAME" !in globals ==> r == Err(KeyError))
            && ("MODEL_BUCKET_NAME" in globals && HardwareConfig(atom, dataSize).Err? ==> r == Err(TypeError))
            && (r.Ok? ==> r.value.Keys == {"trainFiles", "modelDir", "scaleTier", "masterType"}
                                          + (if hyperspace.Null? then {} else {"hyperparameters", "hypertuneLoss"}))
    ensures var r := TrainNewInputs(globals, atom, hyperspace, user, problem, version, trainFiles, dataSize);
            r.Ok? ==> && "trainFiles" in r.value && r.value["trainFiles"] == trainFiles
                      && "scaleTier" in r.value && r.value["scaleTier"] == Str("CUSTOM")
                      && "modelDir" in r.value
                      && r.value["modelDir"] == Str(BucketPath(globals, user, problem, version, "MODELS/").value)
                      && "masterType" in r.value && r.value["masterType"] == Str(HardwareConfig(atom, dataSize).value)
  {
  }

  /**
   * A train spec handler built on the given inputs, then a fresh 'mlapi' train job handler
   * submitting its spec: the job id and the handler's `success`, or the exception raised.
   */
  function SubmittedTrain(deployment: map<string, Value>, cfg: Config, atom: string, entries: map<string, Value>,
                          requestIds: Value, hypertune: bool, t: Timestamp, outcome: ExecOutcome)
    : (r: Result<(string, Option<bool>)>)
    ensures r.Ok? ==> Ok(r.value.0) == PkgJobName("train", requestIds, t, atom)
    ensures r.Ok? && r.value.1 == Some(true) ==> outcome.Returned?
  {
    var built :- BuiltTrainSpec(deployment, cfg, atom, entries, requestIds, hypertune, t);
    var success :- FreshSubmission(PkgHandler.TrainStage, built.1, outcome);
    Ok((built.0, success))
  }

  /** What `train_new` submits: the job id and the handler's `success`, or the exception raised before polling. */
  function TrainNewSubmission(cfg: Config, deployment: map<string, Value>, atom: string, hyperspace: Value,
                              user: Value, problem: Value, version: Value, trainFiles: Value, dataSize: real,
                              t: Timestamp, outcome: ExecOutcome): Result<(string, Option<bool>)>
  {
    var entries :- TrainNewInputs(cfg.globals, atom, hyperspace, user, problem, version, trainFiles, dataSize);
    SubmittedTrain(deployment, cfg, atom, entries, RequestIds(user, problem, version), !hyperspace.Null?, t, outcome)
  }

  /**
   * `train_new`: build and submit one train job, raise ValueError unless it was accepted,
   * poll it and push the assessment.
   */
  function TrainNewSpec(cfg: Config, deployment: map<string, Value>, atom: string, hyperspace: Value,
                        user: Value, problem: Value, version: Value, trainFiles: Value, dataSize: real,
                        t: Timestamp, outcome: ExecOutcome, script: seq<Fetch>): (r: StageResult<seq<string>>)
    ensures "MODEL_BUCKET_NAME" !in cfg.globals ==> r == Threw(KeyError)
    ensures r.Done? ==> outcome.Returned?
    ensures outcome.HttpFailure? ==> r.Threw?
  {
    OneJobTail(TrainNewSubmission(cfg, deployment, atom, hyperspace, user, problem, version, trainFiles, dataSize, t,
                                  outcome), script)
  }

  /**
   * A `train_new` run that pushes a result submitted the job named after the request ids,
   * the stamp and the atom; that job finished SUCCEEDED and is the only one pushed.
   */
  lemma TrainNewDone(cfg: Config, deployment: map<string, Value>, atom: string, hyperspace: Value,
                     user: Value, problem: Value, version: Value, trainFiles: Value, dataSize: real,
                     t: Timestamp, outcome: ExecOutcome, script: seq<Fetch>)
    requires TrainNewSpec(cfg, deployment, atom, hyperspace, user, problem, version, trainFiles, dataSize, t,
                          outcome, script).Done?
    ensures var id := PkgJobName("train", RequestIds(user, problem, version), t, atom);
            var r := TrainNewSpec(cfg, deployment, atom, hyperspace, user, problem, version, trainFiles, dataSize, t,
                                  outcome, script);
            && id.Ok? && outcome.Returned?
            && PollSpec([id.value], script).Finished?
            && id.value in PollSpec([id.value], script).status.states
            && PollSpec([id.value], script).status.states[id.value] == Succeeded
            && (forall x :: x in r.value <==> x == id.value)
  {
    var sub := TrainNewSubmission(cfg, deployment, atom, hyperspace, user, problem, version, trainFiles, dataSize, t,
                                  outcome);
    assert sub.Ok?;
    assert sub.value.0 in [sub.value.0];
  }

  /** A fresh 'mlapi' job handler of the stage submitting a built spec: the `success` it leaves, or the exception raised. */
  method SubmitFresh(globals: map<string, Value>, stage: PkgHandler.Stage, spec: JobSpec, outcome: ExecOutcome)
    returns (r: Result<Option<bool>>)
    requires "PROJECT_ID" in globals
    modifies spec.trainingInput
    ensures r == FreshSubmission(stage, old(spec.trainingInput.entries), outcome)
  {
    var jobHandler := PkgHandler.NewJobHandler(globals, Mlapi, stage);
    var err := jobHandler.value.SubmitJob(Some(spec), outcome);
    if err.Some? {
      return Err(err.value);
    }
    return Ok(jobHandler.value.success);
  }

  /** The train spec handler's constructor and `create_job_specs` on the shared inputs: the spec built, or the exception raised. */
  method BuildTrainSpec(deployment: map<string, Value>, cfg: Config, atom: string, trainingInput: PyDict,
                        requestIds: Value, hypertune: bool, t: Timestamp) returns (r: Result<JobSpec>)
    modifies trainingInput
    ensures var built := BuiltTrainSpec(deployment, cfg, atom, old(trainingInput.entries), requestIds, hypertune, t);
            && (built.Err? ==> r == Err(built.error))
            && (built.Ok? ==> r.Ok? && r.value == JobSpec(built.value.0, trainingInput) && trainingInput.entries == built.value.1)
            && (built.Ok? ==> "PROJECT_ID" in cfg.globals)
  {
    var specHandler := PkgTrain.NewTrainJobSpecHandler(deployment, cfg, atom, trainingInput, true, requestIds, hypertune);
    if specHandler.Err? {
      return Err(specHandler.error);
    }
    var err := specHandler.value.CreateJobSpecs(t);
    if err.Some? {
      return Err(err.value);
    }
    return Ok(specHandler.value.jobSpecs.value);
  }

  /** The spec handler's constructor and `create_job_specs`, then the job handler's `submit_job`. */
  method SubmitTrain(deployment: map<string, Value>, cfg: Config, atom: string, trainingInput: PyDict,
                     requestIds: Value, hypertune: bool, t: Timestamp, outcome: ExecOutcome)
    returns (r: Result<(string, Option<bool>)>)
    modifies trainingInput
    ensures r == SubmittedTrain(deployment, cfg, atom, old(trainingInput.entries), requestIds, hypertune, t, outcome)
  {
    var spec := BuildTrainSpec(deployment, cfg, atom, trainingInput, requestIds, hypertune, t);
    if spec.Err? {
      return Err(spec.error);
    }
    var success := SubmitFresh(cfg.globals, PkgHandler.TrainStage, spec.value, outcome);
    if success.Err? {
      return Err(success.error);
    }
    return Ok((spec.value.jobId, success.value));
  }

  /** The `trainingInput` dict of `train_new`, built step by step. */
  method BuildTrainNewInputs(globals: map<string, Value>, atom: string, hyperspace: Value, user: Value, problem: Value,
                             version: Value, trainFiles: Value, dataSize: real) returns (r: Result<PyDict>)
    ensures var spec := TrainNewInputs(globals, atom, hyperspace, user, problem, version, trainFiles, dataSize);
            && (spec.Err? ==> r == Err(spec.error))
            && (spec.Ok? ==> r.Ok? && fresh(r.value) && r.value.entries == spec.value)
  {
    var modelDir := BucketPath(globals, user, problem, version, "MODELS/");
    if modelDir.Err? {
      return Err(modelDir.error);
    }
    var trainingInput := new PyDict(map["trainFiles" := trainFiles, "modelDir" := Str(modelDir.value),
                                        "scaleTier" := Str("CUSTOM")]);
    var machine := HardwareConfig(atom, dataSize);
    if machine.Err? {
      return Err(machine.error);
    }
    trainingInput.entries := trainingInput.entries["masterType" := Str(machine.value)];
    if !hyperspace.Null? {
      var hyper := HyperEntries(trainingInput.entries, atom, hyperspace);
      if hyper.Err? {
        return Err(hyper.error);
      }
      trainingInput.entries := hyper.value;
    }
    return Ok(trainingInput);
  }

  /** `train_new` (gcpaiutils/wrappers.py), with the shared inputs dict and the two handlers. */
  method TrainNew(cfg: Config, deployment: map<string, Value>, atom: string, hyperspace: Value,
                  user: Value, problem: Value, version: Value, trainFiles: Value, dataSize: real,
                  t: Timestamp, outcome: ExecOutcome, script: seq<Fetch>) returns (r: StageResult<seq<string>>)
    ensures r == TrainNewSpec(cfg, deployment, atom, hyperspace, user, problem, version, trainFiles, dataSize, t,
                              outcome, script)
  {
    var submission: Result<(string, Option<bool>)>;
    var trainingInput := BuildTrainNewInputs(cfg.globals, atom, hyperspace, user, problem, version, trainFiles, dataSize);
    if trainingInput.Err? {
      submission := Err(trainingInput.error);
    } else {
      submission := SubmitTrain(deployment, cfg, atom, trainingInput.value, RequestIds(user, problem, version),
                                !hyperspace.Null?, t, outcome);
    }
    r := CheckAndPoll(submission, script);
  }

  // ---------------------------------------------------------------- train

  /** The train inputs `train` builds: files, the CUSTOM tier, the given machine, and the hyperspace entries. */
  function TrainInputs(atom: string, trainFiles: Value, masterType: Value, hyperspace: Value): Result<map<string, Value>>
  {
    HyperEntries(map["trainFiles" := trainFiles, "scaleTier" := Str("CUSTOM"), "masterType" := masterType], atom, hyperspace)
  }

  /**
   * What `train` submits. Its spec handler gets no request ids, so naming the job raises
   * before any submission.
   */
  function TrainSubmission(cfg: Config, deployment: map<string, Value>, atom: string, trainFiles: Value,
                           masterType: Value, hyperspace: Value, t: Timestamp, outcome: ExecOutcome)
    : Result<(string, Option<bool>)>
  {
    var entries :- TrainInputs(atom, trainFiles, masterType, hyperspace);
    SubmittedTrain(deployment, cfg, atom, entries, Null, !hyperspace.Null?, t, outcome)
  }

  /** `train` (gcpaiutils/wrappers.py): the same tail as `train_new` once a job is submitted. */
  function TrainSpec(cfg: Config, deployment: map<string, Value>, atom: string, trainFiles: Value, masterType: Value,
                     hyperspace: Value, t: Timestamp, outcome: ExecOutcome, script: seq<Fetch>): StageResult<seq<string>>
  {
    OneJobTail(TrainSubmission(cfg, deployment, atom, trainFiles, masterType, hyperspace, t, outcome), script)
  }

  /**
   * `train` never reaches its submission: it raises while building the spec, with TypeError
   * from the job name when nothing earlier fails.
   */
  lemma TrainNeverSubmits(cfg: Config, deployment: map<string, Value>, atom: string, trainFiles: Value,
                          masterType: Value, hyperspace: Value, t: Timestamp, outcome: ExecOutcome, script: seq<Fetch>)
    ensures TrainSubmission(cfg, deployment, atom, trainFiles, masterType, hyperspace, t, outcome).Err?
    ensures TrainSpec(cfg, deployment, atom, trainFiles, masterType, hyperspace, t, outcome, script).Threw?
    ensures var entries := TrainInputs(atom, trainFiles, masterType, hyperspace);
            var image := RegistryImage(deployment, "ATOMS", atom, Some(0));
            entries.Ok? && "PROJECT_ID" in cfg.globals && image.Ok?
            && Fill(PkgTrain.SpecItems(!hyperspace.Null?), PkgTrain.TrainLayers, entries.value["imageUri" := image.value],
                    cfg, atom).error.None?
            ==> TrainSpec(cfg, deployment, atom, trainFiles, masterType, hyperspace, t, outcome, script) == Threw(TypeError)
  {
    var entries := TrainInputs(atom, trainFiles, masterType, hyperspace);
    if entries.Ok? && "PROJECT_ID" in cfg.globals {
      var image := RegistryImage(deployment, "ATOMS", atom, Some(0));
      if image.Ok? {
        var e := entries.value["imageUri" := image.value];
        var filled := Fill(PkgTrain.SpecItems(!hyperspace.Null?), PkgTrain.TrainLayers, e, cfg, atom);
        if filled.error.None? {
          PkgTrain.TrainSpecsWithoutRequestIds(e, cfg, atom, !hyperspace.Null?, true, t);
        }
      }
    }
  }

  /** `train`'s submission is the inputs' exception, or the submission of the built inputs. Proof aid. */
  lemma TrainSubmissionSteps(cfg: Config, deployment: map<string, Value>, atom: string, trainFiles: Value,
                             masterType: Value, hyperspace: Value, t: Timestamp, outcome: ExecOutcome)
    ensures var entries := TrainInputs(atom, trainFiles, masterType, hyperspace);
            TrainSubmission(cfg, deployment, atom, trainFiles, masterType, hyperspace, t, outcome)
            == if entries.Err? then Err(entries.error)
               else SubmittedTrain(deployment, cfg, atom, entries.value, Null, !hyperspace.Null?, t, outcome)
  {
  }

  /** Adding `masterType` to the copied `trainingInput` gives the three-entry dict `train` submits. Proof aid. */
  lemma TrainInputDict(trainFiles: Value, masterType: Value)
    ensures map["trainFiles" := trainFiles, "scaleTier" := Str("CUSTOM")]["masterType" := masterType]
            == map["trainFiles" := trainFiles, "scaleTier" := Str("CUSTOM"), "masterType" := masterType]
  {
  }

  /** `train` up to its submission, with the shared inputs dict and the two handlers. */
  method SubmitTrainStage(cfg: Config, deployment: map<string, Value>, atom: string, trainFiles: Value, masterType: Value,
                          hyperspace: Value, t: Timestamp, outcome: ExecOutcome) returns (submission: Result<(string, Option<bool>)>)
    ensures submission == TrainSubmission(cfg, deployment, atom, trainFiles, masterType, hyperspace, t, outcome)
  {
    var currentInput := new PyDict(map["trainFiles" := trainFiles, "scaleTier" := Str("CUSTOM")]);
    currentInput.entries := currentInput.entries["masterType" := masterType];
    TrainInputDict(trainFiles, masterType);
    var hyper := HyperEntries(currentInput.entries, atom, hyperspace);
    TrainSubmissionSteps(cfg, deployment, atom, trainFiles, masterType, hyperspace, t, outcome);
    if hyper.Err? {
      return Err(hyper.error);
    }
    currentInput.entries := hyper.value;
    submission := SubmitTrain(deployment, cfg, atom, currentInput, Null, !hyperspace.Null?, t, outcome);
  }

  /** `train` (gcpaiutils/wrappers.py): submit, then check and poll. */
  method Train(cfg: Config, deployment: map<string, Value>, atom: string, trainFiles: Value, masterType: Value,
               hyperspace: Value, t: Timestamp, outcome: ExecOutcome, script: seq<Fetch>) returns (r: StageResult<seq<string>>)
    ensures r == TrainSpec(cfg, deployment, atom, trainFiles, masterType, hyperspace, t, outcome, script)
  {
    var submission := SubmitTrainStage(cfg, deployment, atom, trainFiles, masterType, hyperspace, t, outcome);
    r := CheckAndPoll(submission, script);
  }

  // ---------------------------------------------------------------- aggregate_new

  /** The post-processing inputs of `aggregate_new`: KeyError without `MODEL_BUCKET_NAME`. */
  function AggregateInputs(globals: map<string, Value>, user: Value, problem: Value, version: Value, outputUri: Value)
    : Result<map<string, Value>>
  {
    var scoreDir :- BucketPath(globals, user, problem, version, "RESULTS_STAGING/");
    Ok(map["scoreDir" := Str(scoreDir), "outputDir" := outputUri, "masterType" := Str("n1-standard-4"),
           "scaleTier" := Str("CUSTOM")])
  }

  /**
   * A post-processing spec handler for `aggregator` built on the given inputs, then a fresh
   * 'mlapi' post-processing job handler submitting its spec.
   */
  function SubmittedAggregation(deployment: map<string, Value>, cfg: Config, entries: map<string, Value>,
                                requestIds: Value, t: Timestamp, outcome: ExecOutcome)
    : (r: Result<(string, Option<bool>)>)
    ensures r.Ok? ==> Ok(r.value.0) == PkgJobName("postprocess", requestIds, t, "aggregator")
    ensures r.Ok? && r.value.1 == Some(true) ==> outcome.Returned?
  {
    if "PROJECT_ID" !in cfg.globals then Err(KeyError)
    else
      var image :- RegistryImage(deployment, "POSTPROCESS", "aggregator", Some(0));
      var specs := PkgPostprocess.PostprocessSpecs(entries["imageUri" := image], cfg, "aggregator", requestIds, t);
      var id :- specs.jobId;
      var success :- FreshSubmission(PkgHandler.PostprocessStage, specs.entries, outcome);
      Ok((id, success))
  }

  // ---------------------------------------------------------------- get_selector

  /**
   * The reads `get_selector` makes before it lists the bucket: the blob prefix joins the
   * request ids, the credentials file is named by AI_PLATFORM_SA and loads without error, and
   * the storage client finds PROJECT_ID and MODEL_BUCKET_NAME.
   */
  predicate SelectorReachable(globals: map<string, Value>, user: Value, problem: Value, version: Value,
                              credentialFile: Option<Error>)
  {
    && user.Str? && problem.Str? && version.Str?
    && "AI_PLATFORM_SA" in globals && credentialFile.None?
    && "PROJECT_ID" in globals && "MODEL_BUCKET_NAME" in globals
  }

  /**
   * `get_selector`, then the JSON load of the file it fetched. `os.path.join` of the request
   * ids raises TypeError unless all three are strings; `get_gcs_credentials` reads
   * AI_PLATFORM_SA (KeyError), and `credentialFile` is what loading that file (with its
   * fallback to GCP_AI_PLATFORM_SA) raised, if anything; the client reads PROJECT_ID and
   * MODEL_BUCKET_NAME (KeyError). `contents` is what the single selection file yields, or
   * the exception the listing raised: ValueError for several files, IndexError for none.
   */
  function SelectorLookup<T>(globals: map<string, Value>, user: Value, problem: Value, version: Value,
                             credentialFile: Option<Error>, contents: Result<T>): (r: Result<T>)
    ensures r.Ok? <==> SelectorReachable(globals, user, problem, version, credentialFile) && contents.Ok?
    ensures SelectorReachable(globals, user, problem, version, credentialFile) ==> r == contents
    ensures !(user.Str? && problem.Str? && version.Str?) ==> r == Err(TypeError)
    ensures user.Str? && problem.Str? && version.Str? && "AI_PLATFORM_SA" !in globals ==> r == Err(KeyError)
    ensures user.Str? && problem.Str? && version.Str? && "AI_PLATFORM_SA" in globals && credentialFile.Some?
            ==> r == Err(credentialFile.value)
    ensures (&& user.Str? && problem.Str? && version.Str? && "AI_PLATFORM_SA" in globals && credentialFile.None?
             && ("PROJECT_ID" !in globals || "MODEL_BUCKET_NAME" !in globals)) ==> r == Err(KeyError)
  {
    if !(user.Str? && problem.Str? && version.Str?) then Err(TypeError)
    else if "AI_PLATFORM_SA" !in globals then Err(KeyError)
    else if credentialFile.Some? then Err(credentialFile.value)
    else if "PROJECT_ID" !in globals then Err(KeyError)
    else if "MODEL_BUCKET_NAME" !in globals then Err(KeyError)
    else contents
  }

  /**
   * What `aggregate_new` submits, or the exception it raises before polling: the selector
   * lookup comes first, then the post-processing inputs, then the aggregation check.
   */
  function AggregateSubmission(cfg: Config, deployment: map<string, Value>, user: Value, problem: Value,
                               version: Value, credentialFile: Option<Error>, selector: Result<Value>,
                               outputUri: Value, t: Timestamp, outcome: ExecOutcome)
    : Result<(string, Option<bool>)>
  {
    var selectorDict :- SelectorLookup(cfg.globals, user, problem, version, credentialFile, selector);
    var entries :- AggregateInputs(cfg.globals, user, problem, version, outputUri);
    AggregationChoice(selectorDict, deployment, cfg, entries, RequestIds(user, problem, version), t, outcome)
  }

  /** `if selector_dict['aggregation'] == 'average': ... else: raise NotImplementedError`. */
  function AggregationChoice(selector: Value, deployment: map<string, Value>, cfg: Config, entries: map<string, Value>,
                             requestIds: Value, t: Timestamp, outcome: ExecOutcome): Result<(string, Option<bool>)>
  {
    var aggregation :- Get(selector, "aggregation");
    if aggregation != Str("average") then Err(NotImplementedError)
    else SubmittedAggregation(deployment, cfg, entries, requestIds, t, outcome)
  }

  /**
   * `aggregate_new`: only the `average` aggregation is implemented; it submits one
   * `aggregator` post-processing job, polls it and pushes the assessment.
   */
  function AggregateNewSpec(cfg: Config, deployment: map<string, Value>, user: Value, problem: Value,
                            version: Value, credentialFile: Option<Error>, selector: Result<Value>, outputUri: Value,
                            t: Timestamp, outcome: ExecOutcome, script: seq<Fetch>): (r: StageResult<seq<string>>)
    ensures var lookup := SelectorLookup(cfg.globals, user, problem, version, credentialFile, selector);
            lookup.Err? ==> r == Threw(lookup.error)
    ensures (&& user.Str? && problem.Str? && version.Str? && "AI_PLATFORM_SA" in cfg.globals
             && credentialFile.None? && "PROJECT_ID" !in cfg.globals) ==> r == Threw(KeyError)
    ensures (SelectorReachable(cfg.globals, user, problem, version, credentialFile) && selector.Ok?
             && selector.value.Dict? && "aggregation" in selector.value.fields
             && selector.value.fields["aggregation"] != Str("average")) ==> r == Threw(NotImplementedError)
    ensures r.Done? ==> && SelectorReachable(cfg.globals, user, problem, version, credentialFile)
                        && selector.Ok? && Get(selector.value, "aggregation") == Ok(Str("average"))
                        && outcome.Returned?
  {
    OneJobTail(AggregateSubmission(cfg, deployment, user, problem, version, credentialFile, selector, outputUri, t,
                                   outcome), script)
  }

  /**
   * An `aggregate_new` run that pushes a result submitted the `postprocess` job named after
   * the request ids, the stamp and `aggregator`, and that job alone finished SUCCEEDED.
   */
  lemma AggregateNewDone(cfg: Config, deployment: map<string, Value>, user: Value, problem: Value, version: Value,
                         credentialFile: Option<Error>, selector: Result<Value>, outputUri: Value, t: Timestamp,
                         outcome: ExecOutcome, script: seq<Fetch>)
    requires AggregateNewSpec(cfg, deployment, user, problem, version, credentialFile, selector, outputUri, t, outcome,
                              script).Done?
    ensures var id := PkgJobName("postprocess", RequestIds(user, problem, version), t, "aggregator");
            var r := AggregateNewSpec(cfg, deployment, user, problem, version, credentialFile, selector, outputUri, t,
                                      outcome, script);
            && id.Ok?
            && PollSpec([id.value], script).Finished?
            && id.value in PollSpec([id.value], script).status.states
            && PollSpec([id.value], script).status.states[id.value] == Succeeded
            && (forall x :: x in r.value <==> x == id.value)
  {
    var sub := AggregateSubmission(cfg, deployment, user, problem, version, credentialFile, selector, outputUri, t,
                                   outcome);
    assert sub.Ok?;
    assert sub.value.0 in [sub.value.0];
  }

  /** The post-processing spec handler's constructor and `create_job_specs` for the `aggregator`: the spec built, or the exception raised. */
  method BuildAggregationSpec(deployment: map<string, Value>, cfg: Config, entries: map<string, Value>, requestIds: Value,
                              t: Timestamp) returns (r: Result<JobSpec>)
    ensures "PROJECT_ID" !in cfg.globals ==> r == Err(KeyError)
    ensures "PROJECT_ID" in cfg.globals ==>
              var image := RegistryImage(deployment, "POSTPROCESS", "aggregator", Some(0));
              && (image.Err? ==> r == Err(image.error))
              && (image.Ok? ==>
                    var specs := PkgPostprocess.PostprocessSpecs(entries["imageUri" := image.value], cfg, "aggregator", requestIds, t);
                    && (specs.jobId.Err? ==> r == Err(specs.jobId.error))
                    && (specs.jobId.Ok? ==> r.Ok? && r.value.jobId == specs.jobId.value
                                            && r.value.trainingInput.entries == specs.entries && fresh(r.value.trainingInput)))
  {
    var scoreInput := new PyDict(entries);
    var specHandler := PkgPostprocess.NewPostprocessJobSpecHandler(deployment, cfg, "aggregator", scoreInput, requestIds);
    if specHandler.Err? {
      return Err(specHandler.error);
    }
    var err := specHandler.value.CreateJobSpecs(t);
    if err.Some? {
      return Err(err.value);
    }
    return Ok(specHandler.value.jobSpecs.value);
  }

  /**
   * The `scoreInput` dict handed to the post-processing spec handler's constructor and
   * `create_job_specs`, then the job handler's `submit_job`.
   */
  method SubmitAggregation(deployment: map<string, Value>, cfg: Config, entries: map<string, Value>, requestIds: Value,
                           t: Timestamp, outcome: ExecOutcome) returns (r: Result<(string, Option<bool>)>)
    ensures r == SubmittedAggregation(deployment, cfg, entries, requestIds, t, outcome)
  {
    var spec := BuildAggregationSpec(deployment, cfg, entries, requestIds, t);
    if spec.Err? {
      return Err(spec.error);
    }
    var success := SubmitFresh(cfg.globals, PkgHandler.PostprocessStage, spec.value, outcome);
    if success.Err? {
      return Err(success.error);
    }
    return Ok((spec.value.jobId, success.value));
  }

  /** The aggregation check, then the submission of the `aggregator` job. */
  method SubmitAverage(selector: Value, deployment: map<string, Value>, cfg: Config, entries: map<string, Value>,
                       requestIds: Value, t: Timestamp, outcome: ExecOutcome)
    returns (submission: Result<(string, Option<bool>)>)
    ensures submission == AggregationChoice(selector, deployment, cfg, entries, requestIds, t, outcome)
  {
    var aggregation := Get(selector, "aggregation");
    if aggregation.Err? {
      return Err(aggregation.error);
    }
    if aggregation.value == Str("average") {
      submission := SubmitAggregation(deployment, cfg, entries, requestIds, t, outcome);
    } else {
      submission := Err(NotImplementedError);
    }
  }

  /**
   * `aggregate_new` (gcpaiutils/wrappers.py); the outcome of loading the credentials file and
   * the selector file's contents (or the listing's exception) are the `credentialFile` and
   * `selector` arguments.
   */
  method AggregateNew(cfg: Config, deployment: map<string, Value>, user: Value, problem: Value, version: Value,
                      credentialFile: Option<Error>, selector: Result<Value>, outputUri: Value, t: Timestamp,
                      outcome: ExecOutcome, script: seq<Fetch>)
    returns (r: StageResult<seq<string>>)
    ensures r == AggregateNewSpec(cfg, deployment, user, problem, version, credentialFile, selector, outputUri, t,
                                  outcome, script)
  {
    var submission: Result<(string, Option<bool>)>;
    var selectorDict := SelectorLookup(cfg.globals, user, problem, version, credentialFile, selector);
    if selectorDict.Err? {
      submission := Err(selectorDict.error);
    } else {
      // the lookup has read MODEL_BUCKET_NAME, so the inputs are built
      var scoreInput := AggregateInputs(cfg.globals, user, problem, version, outputUri);
      submission := SubmitAverage(selectorDict.value, deployment, cfg, scoreInput.value,
                                  RequestIds(user, problem, version), t, outcome);
    }
    r := CheckAndPoll(submission, script);
  }

  // ---------------------------------------------------------------- score and score_new

  /**
   * What the score spec and job handlers did with one selected model: an accepted job id, a
   * submission that left `success` false, or an exception on the way (an unknown algorithm,
   * a remote failure).
   */
  datatype ScoreAnswer = Accepted(jobId: string) | Rejected | Raising(error: Error)

  /** What `list_blobs` gave for a selected model's path: some blobs, none, or an exception. */
  datatype Listing = Blobs | NoBlobs | ListingRaised(error: Error)

  /**
   * One read the submission loop makes for a selected model before it builds the score spec:
   * a deployment key, the blob listing, or `blobs[0]`.
   */
  datatype Read = DeploymentKey(key: string) | ListBlobs | FirstBlob

  /** The exception one read raises, if any. */
  function ReadError(globals: map<string, Value>, read: Read, listing: Listing): Option<Error>
  {
    match read
    case DeploymentKey(key) => if key in globals then None else Some(KeyError)
    case ListBlobs => if listing.ListingRaised? then Some(listing.error) else None
    case FirstBlob =>
      match listing
      case Blobs => None
      case NoBlobs => Some(IndexError)
      case ListingRaised(e) => Some(e)
  }

  /** The exception of the first read that fails, in order, or None when every read succeeds. */
  function ReadsError(globals: map<string, Value>, steps: seq<Read>, listing: Listing): Option<Error>
    decreases |steps|
  {
    if |steps| == 0 then None
    else match ReadError(globals, steps[0], listing)
      case Some(e) => Some(e)
      case None => ReadsError(globals, steps[1..], listing)
  }

  /**
   * The reads fail exactly when one of them does, and then with the exception of the first
   * that fails: every read before it succeeded.
   */
  lemma {:induction false} ReadsErrorFirst(globals: map<string, Value>, steps: seq<Read>, listing: Listing)
    ensures ReadsError(globals, steps, listing).None?
            <==> forall k :: 0 <= k < |steps| ==> ReadError(globals, steps[k], listing).None?
    ensures ReadsError(globals, steps, listing).Some? ==>
              exists k :: && 0 <= k < |steps| && ReadError(globals, steps[k], listing) == ReadsError(globals, steps, listing)
                          && forall j :: 0 <= j < k ==> ReadError(globals, steps[j], listing).None?
    decreases |steps|
  {
    if |steps| > 0 && ReadError(globals, steps[0], listing).None? {
      var rest := steps[1..];
      ReadsErrorFirst(globals, rest, listing);
      assert forall k :: 1 <= k < |steps| ==> steps[k] == rest[k - 1];
      if ReadsError(globals, rest, listing).Some? {
        var k :| && 0 <= k < |rest| && ReadError(globals, rest[k], listing) == ReadsError(globals, rest, listing)
                 && forall j :: 0 <= j < k ==> ReadError(globals, rest[j], listing).None?;
        assert ReadError(globals, steps[k + 1], listing) == ReadsError(globals, steps, listing);
      }
    }
  }

  /**
   * The reads of one selected model in `score` and `score_new`: the bucket name passed to
   * `list_blobs`, the listing, MODEL_BUCKET_ADDRESS, `blobs[0]`, then the bucket key of
   * `outputDir`, `last`.
   */
  function BucketReads(last: string): seq<Read>
  {
    [DeploymentKey("MODEL_BUCKET_NAME"), ListBlobs, DeploymentKey("MODEL_BUCKET_ADDRESS"), FirstBlob, DeploymentKey(last)]
  }

  /** `score` builds `outputDir` from CORE_BUCKET_NAME. */
  const ScoreReads: seq<Read> := BucketReads("CORE_BUCKET_NAME")

  /** `score_new` builds `outputDir` from MODEL_BUCKET_NAME. */
  const ScoreNewReads: seq<Read> := BucketReads("MODEL_BUCKET_NAME")

  /**
   * A model's reads fail in source order: a missing bucket name, then the listing's own
   * exception, then a missing MODEL_BUCKET_ADDRESS, then IndexError for an empty listing, then
   * a missing `last` key.
   */
  lemma BucketReadsOrder(globals: map<string, Value>, listing: Listing, last: string)
    ensures ReadsError(globals, BucketReads(last), listing)
            == if "MODEL_BUCKET_NAME" !in globals then Some(KeyError)
               else if listing.ListingRaised? then Some(listing.error)
               else if "MODEL_BUCKET_ADDRESS" !in globals then Some(KeyError)
               else if listing.NoBlobs? then Some(IndexError)
               else if last !in globals then Some(KeyError)
               else None
  {
    var steps := BucketReads(last);
    var afterName, afterListing, afterAddress, afterFirst := steps[1..], steps[2..], steps[3..], steps[4..];
    assert afterName[1..] == afterListing && afterListing[1..] == afterAddress && afterAddress[1..] == afterFirst;
    assert afterFirst == [DeploymentKey(last)] && afterFirst[1..] == [];
    assert ReadsError(globals, afterFirst, listing) == ReadError(globals, DeploymentKey(last), listing);
    assert ReadsError(globals, afterAddress, listing)
           == if listing.Blobs? then ReadsError(globals, afterFirst, listing)
              else if listing.NoBlobs? then Some(IndexError) else Some(listing.error);
    assert ReadsError(globals, afterListing, listing)
           == if "MODEL_BUCKET_ADDRESS" in globals then ReadsError(globals, afterAddress, listing) else Some(KeyError);
    assert ReadsError(globals, afterName, listing)
           == if listing.ListingRaised? then Some(listing.error) else ReadsError(globals, afterListing, listing);
  }

  /** The plan of each selected info file, in order. */
  function Plans(infos: seq<string>): (r: seq<Result<(string, string)>>)
    ensures |r| == |infos| && forall i :: 0 <= i < |infos| ==> r[i] == ScorePlan(infos[i])
  {
    seq(|infos|, i requires 0 <= i < |infos| => ScorePlan(infos[i]))
  }

  /**
   * The submission loop of `score` and `score_new` from the `i`-th selected info file on: the
   * score job to train job dict, and the algorithms handed to the score spec handlers. Each
   * model's `steps` are made in order, with `listings[i]` as what its listing gave, before
   * the spec and job handlers give `answers[i]`.
   */
  function ScoreSubmissions(globals: map<string, Value>, steps: seq<Read>, plans: seq<Result<(string, string)>>,
                            listings: seq<Listing>, answers: seq<ScoreAnswer>, i: nat, submitted: StateMap,
                            algorithms: seq<string>)
    : (r: StageResult<(StateMap, seq<string>)>)
    requires |listings| == |answers| == |plans| && i <= |plans| && submitted.Valid()
    ensures r.Done? ==> r.value.0.Valid()
    decreases |plans| - i
  {
    if i == |plans| then Done((submitted, algorithms))
    else match plans[i]
      case Err(e) => Threw(e)
      case Ok((algorithm, trainJob)) =>
        match ReadsError(globals, steps, listings[i])
        case Some(e) => Threw(e)
        case None =>
          match answers[i]
          case Raising(e) => Threw(e)
          case Rejected => Threw(ValueError)
          case Accepted(id) =>
            ScoreSubmissions(globals, steps, plans, listings, answers, i + 1, submitted.Put(id, trainJob),
                             algorithms + [algorithm])
  }

  /**
   * The loop gets through every remaining model exactly when each has an `info` shard, each
   * model's reads succeed and every submission was accepted.
   */
  lemma {:induction false} ScoreSubmissionsDone(globals: map<string, Value>, steps: seq<Read>,
                                                plans: seq<Result<(string, string)>>, listings: seq<Listing>,
                                                answers: seq<ScoreAnswer>, i: nat,
                                                submitted: StateMap,
                                                algorithms: seq<string>)
    requires |listings| == |answers| == |plans| && i <= |plans| && submitted.Valid()
    ensures ScoreSubmissions(globals, steps, plans, listings, answers, i, submitted, algorithms).Done?
            <==> forall j :: i <= j < |plans| ==>
                   plans[j].Ok? && ReadsError(globals, steps, listings[j]).None? && answers[j].Accepted?
    decreases |plans| - i
  {
    if i < |plans| && plans[i].Ok? && ReadsError(globals, steps, listings[i]).None? && answers[i].Accepted? {
      var (algorithm, trainJob) := plans[i].value;
      ScoreSubmissionsDone(globals, steps, plans, listings, answers, i + 1, submitted.Put(answers[i].jobId, trainJob),
                           algorithms + [algorithm]);
    }
  }

  /** A completed loop hands each model's corrected algorithm to the score spec handler, in order. */
  lemma {:induction false} ScoreSubmissionsAlgorithms(globals: map<string, Value>, steps: seq<Read>,
                                                      plans: seq<Result<(string, string)>>, listings: seq<Listing>,
                                                answers: seq<ScoreAnswer>, i: nat,
                                                      submitted: StateMap, algorithms: seq<string>)
    requires |listings| == |answers| == |plans| && i <= |plans| && submitted.Valid()
    requires ScoreSubmissions(globals, steps, plans, listings, answers, i, submitted, algorithms).Done?
    ensures var handed := ScoreSubmissions(globals, steps, plans, listings, answers, i, submitted, algorithms).value.1;
            && |handed| == |algorithms| + |plans| - i
            && handed[..|algorithms|] == algorithms
            && forall j :: i <= j < |plans| ==> plans[j].Ok?
                                                && handed[|algorithms| + j - i] == plans[j].value.0
    decreases |plans| - i
  {
    if i < |plans| {
      var (algorithm, trainJob) := plans[i].value;
      var next := algorithms + [algorithm];
      ScoreSubmissionsAlgorithms(globals, steps, plans, listings, answers, i + 1, submitted.Put(answers[i].jobId, trainJob), next);
      var handed := ScoreSubmissions(globals, steps, plans, listings, answers, i, submitted, algorithms).value.1;
      assert handed[..|algorithms|] == handed[..|next|][..|algorithms|];
    }
  }

  /** A completed loop took its first remaining step: the plan was there, the reads succeeded and the answer was a job. */
  lemma ScoreSubmissionsStep(globals: map<string, Value>, steps: seq<Read>, plans: seq<Result<(string, string)>>,
                             listings: seq<Listing>, answers: seq<ScoreAnswer>, i: nat, submitted: StateMap, algorithms: seq<string>)
    requires |listings| == |answers| == |plans| && i < |plans| && submitted.Valid()
    requires ScoreSubmissions(globals, steps, plans, listings, answers, i, submitted, algorithms).Done?
    ensures plans[i].Ok? && ReadsError(globals, steps, listings[i]).None? && answers[i].Accepted?
    ensures ScoreSubmissions(globals, steps, plans, listings, answers, i, submitted, algorithms)
            == ScoreSubmissions(globals, steps, plans, listings, answers, i + 1, submitted.Put(answers[i].jobId, plans[i].value.1),
                                algorithms + [plans[i].value.0])
  {
  }

  /** After a completed loop every accepted job, and every key the dict already had, is a key of the dict. */
  lemma {:induction false} ScoreSubmissionsJobs(globals: map<string, Value>, steps: seq<Read>,
                                                plans: seq<Result<(string, string)>>, listings: seq<Listing>,
                                                answers: seq<ScoreAnswer>, i: nat,
                                                submitted: StateMap,
                                                algorithms: seq<string>)
    requires |listings| == |answers| == |plans| && i <= |plans| && submitted.Valid()
    requires ScoreSubmissions(globals, steps, plans, listings, answers, i, submitted, algorithms).Done?
    ensures var jobs := ScoreSubmissions(globals, steps, plans, listings, answers, i, submitted, algorithms).value.0;
            && (forall j :: i <= j < |plans| ==> answers[j].Accepted? && answers[j].jobId in jobs.states)
            && (forall k :: k in submitted.states ==> k in jobs.states)
    decreases |plans| - i
  {
    if i < |plans| {
      ScoreSubmissionsStep(globals, steps, plans, listings, answers, i, submitted, algorithms);
      var next := submitted.Put(answers[i].jobId, plans[i].value.1);
      ScoreSubmissionsJobs(globals, steps, plans, listings, answers, i + 1, next, algorithms + [plans[i].value.0]);
    }
  }

  /**
   * After a completed loop every key of the dict is bound to the train job of a model it was
   * accepted for, or is an entry the dict already had.
   */
  lemma {:induction false} ScoreSubmissionsOrigins(globals: map<string, Value>, steps: seq<Read>,
                                                   plans: seq<Result<(string, string)>>, listings: seq<Listing>,
                                                answers: seq<ScoreAnswer>, i: nat,
                                                   submitted: StateMap,
                                                   algorithms: seq<string>)
    requires |listings| == |answers| == |plans| && i <= |plans| && submitted.Valid()
    requires ScoreSubmissions(globals, steps, plans, listings, answers, i, submitted, algorithms).Done?
    ensures var jobs := ScoreSubmissions(globals, steps, plans, listings, answers, i, submitted, algorithms).value.0;
            forall k :: k in jobs.states ==>
              || (exists j :: i <= j < |plans| && answers[j] == Accepted(k) && plans[j].Ok?
                              && jobs.states[k] == plans[j].value.1)
              || (k in submitted.states && jobs.states[k] == submitted.states[k])
    decreases |plans| - i
  {
    if i < |plans| {
      ScoreSubmissionsStep(globals, steps, plans, listings, answers, i, submitted, algorithms);
      var id, trainJob := answers[i].jobId, plans[i].value.1;
      var next := submitted.Put(id, trainJob);
      ScoreSubmissionsOrigins(globals, steps, plans, listings, answers, i + 1, next, algorithms + [plans[i].value.0]);
      var jobs := ScoreSubmissions(globals, steps, plans, listings, answers, i, submitted, algorithms).value.0;
      forall k | k in jobs.states
        ensures || (exists j :: i <= j < |plans| && answers[j] == Accepted(k) && plans[j].Ok?
                                && jobs.states[k] == plans[j].value.1)
                || (k in submitted.states && jobs.states[k] == submitted.states[k])
      {
        if k == id && jobs.states[k] == trainJob {
          assert answers[i] == Accepted(k);
        }
      }
    }
  }

  /**
   * A loop completed from an empty dict binds each accepted job, and only those, to the train
   * job of the model it was accepted for.
   */
  lemma ScoreSubmissionsFromEmpty(globals: map<string, Value>, steps: seq<Read>,
                                  plans: seq<Result<(string, string)>>, listings: seq<Listing>, answers: seq<ScoreAnswer>)
    requires |listings| == |answers| == |plans|
    requires ScoreSubmissions(globals, steps, plans, listings, answers, 0, EmptyStates, []).Done?
    ensures var jobs := ScoreSubmissions(globals, steps, plans, listings, answers, 0, EmptyStates, []).value.0.states;
            && (forall i :: 0 <= i < |plans| ==> answers[i].Accepted? && answers[i].jobId in jobs)
            && forall k :: k in jobs ==>
                 exists i :: 0 <= i < |plans| && answers[i] == Accepted(k) && plans[i].Ok? && jobs[k] == plans[i].value.1
  {
    ScoreSubmissionsJobs(globals, steps, plans, listings, answers, 0, EmptyStates, []);
    ScoreSubmissionsOrigins(globals, steps, plans, listings, answers, 0, EmptyStates, []);
  }

  /**
   * A loop over the bucket reads completed from an empty dict only when every plan was there,
   * every listing found a blob and every answer was a job.
   */
  lemma ScoreSubmissionsListed(globals: map<string, Value>, last: string, plans: seq<Result<(string, string)>>,
                               listings: seq<Listing>, answers: seq<ScoreAnswer>)
    requires |listings| == |answers| == |plans|
    requires ScoreSubmissions(globals, BucketReads(last), plans, listings, answers, 0, EmptyStates, []).Done?
    ensures forall i :: 0 <= i < |plans| ==> plans[i].Ok? && listings[i] == Blobs && answers[i].Accepted?
  {
    ScoreSubmissionsDone(globals, BucketReads(last), plans, listings, answers, 0, EmptyStates, []);
    forall i | 0 <= i < |plans|
      ensures listings[i] == Blobs
    {
      BucketReadsOrder(globals, listings[i], last);
    }
  }

  /** `for info in selected_info: ...`: one plan, one listing and one answer per selected model. */
  method SubmitScores(globals: map<string, Value>, steps: seq<Read>, infos: seq<string>, listings: seq<Listing>,
                      answers: seq<ScoreAnswer>)
    returns (r: StageResult<(StateMap, seq<string>)>)
    requires |listings| == |answers| == |infos|
    ensures r == ScoreSubmissions(globals, steps, Plans(infos), listings, answers, 0, EmptyStates, [])
  {
    ghost var plans := Plans(infos);
    var submittedScoringJobs := EmptyStates;
    var algorithms: seq<string> := [];
    var i := 0;
    while i < |infos|
      invariant 0 <= i <= |infos| && submittedScoringJobs.Valid()
      invariant ScoreSubmissions(globals, steps, plans, listings, answers, 0, EmptyStates, [])
                == ScoreSubmissions(globals, steps, plans, listings, answers, i, submittedScoringJobs, algorithms)
    {
      var plan := ScorePlan(infos[i]);
      assert plans[i] == plan;
      if plan.Err? {
        return Threw(plan.error);
      }
      var failed := ReadsError(globals, steps, listings[i]);
      if failed.Some? {
        return Threw(failed.value);
      }
      match answers[i]
      case Raising(e) =>
        return Threw(e);
      case Rejected =>
        return Threw(ValueError);
      case Accepted(id) =>
        submittedScoringJobs := submittedScoringJobs.Put(id, plan.value.1);
        algorithms := algorithms + [plan.value.0];
        i := i + 1;
    }
    return Done((submittedScoringJobs, algorithms));
  }

  /**
   * `score`: submit one score job per selected model, poll them, then require each polled job
   * SUCCEEDED; the value is the dict from score job to train job that the result copying uses.
   * `plans` are the selected info files' plans, `Plans(selected_info)`, and `listings` what
   * `list_blobs` gave for each.
   */
  function ScoreSpec(globals: map<string, Value>, plans: seq<Result<(string, string)>>, listings: seq<Listing>,
                     answers: seq<ScoreAnswer>, script: seq<Fetch>): (r: StageResult<StateMap>)
    requires |listings| == |answers| == |plans|
  {
    match ScoreSubmissions(globals, ScoreReads, plans, listings, answers, 0, EmptyStates, [])
    case Threw(e) => Threw(e)
    case Unfinished => Unfinished
    case Done((submitted, _)) =>
      match PollSpec(submitted.keys, script)
      case Raised(e) => Threw(e)
      case OutOfScript => Unfinished
      case Finished(status) =>
        PollFinished(submitted.keys, script, 0, None);
        match ScoreStatus(status.keys, status.states, submitted.states, EmptyStates)
        case Ok(successful) => Done(successful)
        case Err(e) => Threw(e)
  }

  /**
   * Once every model is submitted and the poll finishes, `score` completes exactly when every
   * score job SUCCEEDED and otherwise raises ValueError.
   */
  lemma ScoreChecksStates(globals: map<string, Value>, plans: seq<Result<(string, string)>>, listings: seq<Listing>,
                          answers: seq<ScoreAnswer>, script: seq<Fetch>)
    requires |listings| == |answers| == |plans|
    requires ScoreSubmissions(globals, ScoreReads, plans, listings, answers, 0, EmptyStates, []).Done?
    requires PollSpec(ScoreSubmissions(globals, ScoreReads, plans, listings, answers, 0, EmptyStates, []).value.0.keys,
                      script).Finished?
    ensures var status := PollSpec(ScoreSubmissions(globals, ScoreReads, plans, listings, answers, 0, EmptyStates, [])
                                   .value.0.keys, script).status;
            ScoreSpec(globals, plans, listings, answers, script).Done?
            <==> forall k :: k in status.states ==> status.states[k] == Succeeded
    ensures ScoreSpec(globals, plans, listings, answers, script).Threw? ==>
              ScoreSpec(globals, plans, listings, answers, script).error == ValueError
  {
    var submitted := ScoreSubmissions(globals, ScoreReads, plans, listings, answers, 0, EmptyStates, []).value.0;
    var status := PollSpec(submitted.keys, script).status;
    PollFinished(submitted.keys, script, 0, None);
    ScoreStatusSpec(status.keys, status.states, submitted.states, EmptyStates);
  }

  /**
   * A completed `score` hands on each accepted score job, and only those, with the train job
   * of the model it scores.
   */
  lemma ScoreDone(globals: map<string, Value>, plans: seq<Result<(string, string)>>, listings: seq<Listing>,
                  answers: seq<ScoreAnswer>, script: seq<Fetch>)
    requires |listings| == |answers| == |plans|
    requires ScoreSpec(globals, plans, listings, answers, script).Done?
    ensures var successful := ScoreSpec(globals, plans, listings, answers, script).value.states;
            && (forall i :: 0 <= i < |plans| ==> answers[i].Accepted? && answers[i].jobId in successful)
            && forall k :: k in successful ==>
                 exists i :: 0 <= i < |plans| && answers[i] == Accepted(k) && plans[i].Ok?
                             && successful[k] == plans[i].value.1
  {
    var submitted := ScoreSubmissions(globals, ScoreReads, plans, listings, answers, 0, EmptyStates, []).value.0;
    var status := PollSpec(submitted.keys, script).status;
    PollFinished(submitted.keys, script, 0, None);
    ScoreStatusKeepsSubmissions(status, submitted);
    ScoreSubmissionsFromEmpty(globals, ScoreReads, plans, listings, answers);
    assert ScoreSpec(globals, plans, listings, answers, script).value.states == submitted.states;
  }

  /**
   * The first selected model's reads decide `score` in source order: a missing
   * MODEL_BUCKET_NAME, then the listing's own exception, then a missing MODEL_BUCKET_ADDRESS,
   * then IndexError for an empty listing, then a missing CORE_BUCKET_NAME.
   */
  lemma ScoreFirstModelReads(globals: map<string, Value>, plans: seq<Result<(string, string)>>, listings: seq<Listing>,
                             answers: seq<ScoreAnswer>, script: seq<Fetch>)
    requires |listings| == |answers| == |plans| && |plans| > 0 && plans[0].Ok?
    ensures "MODEL_BUCKET_NAME" !in globals ==> ScoreSpec(globals, plans, listings, answers, script) == Threw(KeyError)
    ensures "MODEL_BUCKET_NAME" in globals && listings[0].ListingRaised? ==>
              ScoreSpec(globals, plans, listings, answers, script) == Threw(listings[0].error)
    ensures "MODEL_BUCKET_NAME" in globals && !listings[0].ListingRaised? && "MODEL_BUCKET_ADDRESS" !in globals ==>
              ScoreSpec(globals, plans, listings, answers, script) == Threw(KeyError)
    ensures ("MODEL_BUCKET_NAME" in globals && "MODEL_BUCKET_ADDRESS" in globals && listings[0] == NoBlobs) ==>
              ScoreSpec(globals, plans, listings, answers, script) == Threw(IndexError)
    ensures ("MODEL_BUCKET_NAME" in globals && "MODEL_BUCKET_ADDRESS" in globals && listings[0] == Blobs
             && "CORE_BUCKET_NAME" !in globals) ==>
              ScoreSpec(globals, plans, listings, answers, script) == Threw(KeyError)
  {
    BucketReadsOrder(globals, listings[0], "CORE_BUCKET_NAME");
  }

  /** The `score` stage: submissions, `poll`, then the status loop. */
  method Score(globals: map<string, Value>, infos: seq<string>, listings: seq<Listing>, answers: seq<ScoreAnswer>,
               script: seq<Fetch>)
    returns (r: StageResult<StateMap>)
    requires |listings| == |answers| == |infos|
    ensures r == ScoreSpec(globals, Plans(infos), listings, answers, script)
  {
    var submissions := SubmitScores(globals, ScoreReads, infos, listings, answers);
    if !submissions.Done? {
      return if submissions.Threw? then Threw(submissions.error) else Unfinished;
    }
    var submittedScoringJobs := submissions.value.0;
    var polled := Poll(submittedScoringJobs.keys, script);
    if polled.Raised? {
      return Threw(polled.error);
    } else if polled.OutOfScript? {
      return Unfinished;
    }
    PollFinished(submittedScoringJobs.keys, script, 0, None);
    var successful := CheckScored(polled.status, submittedScoringJobs.states);
    r := if successful.Ok? then Done(successful.value) else Threw(successful.error);
  }

  // ---------------------------------------------------------------- score_new

  /**
   * `score_new`: the selector lookup yields the plans of the selected info files or the
   * exception it raised; one score job per model is submitted, and the jobs are polled and
   * assessed.
   */
  function ScoreNewSpec(globals: map<string, Value>, user: Value, problem: Value, version: Value,
                        credentialFile: Option<Error>, selection: Result<seq<Result<(string, string)>>>,
                        listings: seq<Listing>, answers: seq<ScoreAnswer>, script: seq<Fetch>)
    : (r: StageResult<seq<string>>)
    requires selection.Ok? ==> |listings| == |answers| == |selection.value|
  {
    match SelectorLookup(globals, user, problem, version, credentialFile, selection)
      case Err(e) => Threw(e)
      case Ok(plans) =>
        match ScoreSubmissions(globals, ScoreNewReads, plans, listings, answers, 0, EmptyStates, [])
        case Threw(e) => Threw(e)
        case Unfinished => Unfinished
        case Done((submitted, _)) => Assessed(Some(true), submitted.keys, script)
  }

  /**
   * `score_new` completes only when the selection was read and every model was listed and
   * submitted, and then pushes exactly the accepted score jobs; the selector lookup's
   * exception comes first.
   */
  lemma ScoreNewDone(globals: map<string, Value>, user: Value, problem: Value, version: Value,
                     credentialFile: Option<Error>, selection: Result<seq<Result<(string, string)>>>,
                     listings: seq<Listing>, answers: seq<ScoreAnswer>, script: seq<Fetch>)
    requires selection.Ok? ==> |listings| == |answers| == |selection.value|
    ensures var r := ScoreNewSpec(globals, user, problem, version, credentialFile, selection, listings, answers, script);
            r.Done? ==> && SelectorReachable(globals, user, problem, version, credentialFile) && selection.Ok?
                        && (forall i :: 0 <= i < |selection.value| ==>
                              answers[i].Accepted? && selection.value[i].Ok? && listings[i] == Blobs)
                        && forall j :: j in r.value <==> exists i :: 0 <= i < |selection.value| && answers[i] == Accepted(j)
    ensures var lookup := SelectorLookup(globals, user, problem, version, credentialFile, selection);
            lookup.Err? ==> ScoreNewSpec(globals, user, problem, version, credentialFile, selection, listings, answers,
                                         script)
                            == Threw(lookup.error)
    ensures (&& SelectorReachable(globals, user, problem, version, credentialFile) && selection.Ok?
             && |selection.value| > 0 && selection.value[0].Ok? && !listings[0].ListingRaised?
             && "MODEL_BUCKET_ADDRESS" !in globals)
            ==> ScoreNewSpec(globals, user, problem, version, credentialFile, selection, listings, answers, script)
                == Threw(KeyError)
  {
    var lookup := SelectorLookup(globals, user, problem, version, credentialFile, selection);
    if lookup.Ok? {
      var plans := selection.value;
      ScoreNewAfterLookup(globals, user, problem, version, credentialFile, selection, listings, answers, script);
      if |plans| > 0 && plans[0].Ok? {
        ScoreNewFirstModelReads(globals, user, problem, version, credentialFile, selection, listings, answers, script);
      }
      if ScoreNewSpec(globals, user, problem, version, credentialFile, selection, listings, answers, script).Done? {
        ScoreNewCompleted(globals, user, problem, version, credentialFile, selection, listings, answers, script);
      }
    }
  }

  /** A completed `score_new` listed a blob and had a job accepted for every model, and pushes those jobs. */
  lemma ScoreNewCompleted(globals: map<string, Value>, user: Value, problem: Value, version: Value,
                          credentialFile: Option<Error>, selection: Result<seq<Result<(string, string)>>>,
                          listings: seq<Listing>, answers: seq<ScoreAnswer>, script: seq<Fetch>)
    requires SelectorLookup(globals, user, problem, version, credentialFile, selection).Ok?
    requires |listings| == |answers| == |selection.value|
    requires ScoreNewSpec(globals, user, problem, version, credentialFile, selection, listings, answers, script).Done?
    ensures (forall i :: 0 <= i < |selection.value| ==>
               answers[i].Accepted? && selection.value[i].Ok? && listings[i] == Blobs)
    ensures var r := ScoreNewSpec(globals, user, problem, version, credentialFile, selection, listings, answers, script);
            forall j :: j in r.value <==> exists i :: 0 <= i < |selection.value| && answers[i] == Accepted(j)
  {
    var plans := selection.value;
    ScoreNewAfterLookup(globals, user, problem, version, credentialFile, selection, listings, answers, script);
    var sub := ScoreSubmissions(globals, ScoreNewReads, plans, listings, answers, 0, EmptyStates, []);
    assert sub.Done?;
    var submitted := sub.value.0;
    var r := ScoreNewSpec(globals, user, problem, version, credentialFile, selection, listings, answers, script);
    assert r == Assessed(Some(true), submitted.keys, script);
    ScoreSubmissionsListed(globals, "MODEL_BUCKET_NAME", plans, listings, answers);
    ScoreSubmissionsFromEmpty(globals, ScoreNewReads, plans, listings, answers);
    assert forall j :: j in r.value <==> j in submitted.states;
  }

  /**
   * Once the selector lookup succeeded, the first selected model's reads decide `score_new` in
   * source order: the listing's own exception, then a missing MODEL_BUCKET_ADDRESS, then
   * IndexError for an empty listing. The lookup has read MODEL_BUCKET_NAME already.
   */
  lemma ScoreNewFirstModelReads(globals: map<string, Value>, user: Value, problem: Value, version: Value,
                                credentialFile: Option<Error>, selection: Result<seq<Result<(string, string)>>>,
                                listings: seq<Listing>, answers: seq<ScoreAnswer>, script: seq<Fetch>)
    requires SelectorLookup(globals, user, problem, version, credentialFile, selection).Ok?
    requires |listings| == |answers| == |selection.value| && |selection.value| > 0 && selection.value[0].Ok?
    ensures listings[0].ListingRaised? ==>
              ScoreNewSpec(globals, user, problem, version, credentialFile, selection, listings, answers, script)
              == Threw(listings[0].error)
    ensures !listings[0].ListingRaised? && "MODEL_BUCKET_ADDRESS" !in globals ==>
              ScoreNewSpec(globals, user, problem, version, credentialFile, selection, listings, answers, script)
              == Threw(KeyError)
    ensures "MODEL_BUCKET_ADDRESS" in globals && listings[0] == NoBlobs ==>
              ScoreNewSpec(globals, user, problem, version, credentialFile, selection, listings, answers, script)
              == Threw(IndexError)
  {
    ScoreNewAfterLookup(globals, user, problem, version, credentialFile, selection, listings, answers, script);
    BucketReadsOrder(globals, listings[0], "MODEL_BUCKET_NAME");
  }

  /** Once the selector lookup has read the selection, `score_new` submits its plans. Proof aid. */
  lemma ScoreNewAfterLookup(globals: map<string, Value>, user: Value, problem: Value, version: Value,
                            credentialFile: Option<Error>, selection: Result<seq<Result<(string, string)>>>,
                            listings: seq<Listing>, answers: seq<ScoreAnswer>, script: seq<Fetch>)
    requires SelectorLookup(globals, user, problem, version, credentialFile, selection).Ok?
    requires |listings| == |answers| == |selection.value|
    ensures SelectorReachable(globals, user, problem, version, credentialFile)
    ensures "MODEL_BUCKET_NAME" in globals
    ensures ScoreNewSpec(globals, user, problem, version, credentialFile, selection, listings, answers, script)
            == match ScoreSubmissions(globals, ScoreNewReads, selection.value, listings, answers, 0, EmptyStates, [])
               case Threw(e) => Threw(e)
               case Unfinished => Unfinished
               case Done((submitted, _)) => Assessed(Some(true), submitted.keys, script)
  {
  }

  /** The plans of the selected info files, or the exception the selector lookup raised. */
  function SelectionPlans(selection: Result<seq<string>>): (r: Result<seq<Result<(string, string)>>>)
    ensures r.Ok? <==> selection.Ok?
    ensures r.Ok? ==> |r.value| == |selection.value|
  {
    match selection
    case Ok(infos) => Ok(Plans(infos))
    case Err(e) => Err(e)
  }

  /** The `score_new` stage: submissions, then `poll` and `get_job_assessment`. */
  method ScoreNew(globals: map<string, Value>, user: Value, problem: Value, version: Value,
                  credentialFile: Option<Error>, selection: Result<seq<string>>, listings: seq<Listing>,
                  answers: seq<ScoreAnswer>, script: seq<Fetch>) returns (r: StageResult<seq<string>>)
    requires selection.Ok? ==> |listings| == |answers| == |selection.value|
    ensures r == ScoreNewSpec(globals, user, problem, version, credentialFile, SelectionPlans(selection), listings,
                              answers, script)
  {
    var infos := SelectorLookup(globals, user, problem, version, credentialFile, selection);
    if infos.Err? {
      return Threw(infos.error);
    }
    var submissions := SubmitScores(globals, ScoreNewReads, infos.value, listings, answers);
    if !submissions.Done? {
      return if submissions.Threw? then Threw(submissions.error) else Unfinished;
    }
    r := AssessJobs(submissions.value.0.keys, script);
  }
}
