/**
 * gcpaiutils/handler.py with the two job handlers of the package (train.py and
 * postprocess.py): a handler translates a job spec into a request body in place, builds the
 * create request and executes it through the remote API; only the 'mlapi' executor is
 * implemented. The stage stands in for the subclass and selects the translation.
 */
module PkgHandler {
  import opened Results
  import opened Values
  import opened ArgTranslation
  import PkgTrain
  import PkgPostprocess

  /** Which subclass the handler is. */
  datatype Stage = TrainStage | PostprocessStage

  /** `jobs().create(body=..., parent=...)`: the translated spec and the parent project path. */
  datatype JobRequest = JobRequest(parent: string, body: JobSpec)

  /** The flags a stage appends; the train flags depend on whether the handler is tuning. */
  function StageFlags(stage: Stage, hypertune: bool): (r: seq<(string, string)>)
    ensures WellFormedFlags(r)
  {
    match stage
    case TrainStage => PkgTrain.TrainFlags(hypertune)
    case PostprocessStage => PkgPostprocess.PostprocessFlagsWellFormed(); PkgPostprocess.PostprocessFlags
  }

  /**
   * `translate_job_specs` as a function of the handler's tuning flag and the spec's
   * `trainingInput` (None for a missing spec): the new tuning flag and the rewrite.
   */
  function Translation(stage: Stage, hypertune: bool, ti: Option<map<string, Value>>): (r: (bool, Outcome))
    ensures ti.None? ==> r.0 == hypertune && r.1.error == Some(ValueError)
    ensures ti.Some? && stage.TrainStage? ==> r == PkgTrain.TrainTranslation(ti.value, hypertune)
    ensures ti.Some? && stage.PostprocessStage? ==>
              r == (hypertune, Translate(ti.value, KeepUserArgs, PkgPostprocess.PostprocessFlags))
  {
    match ti
    case None => (hypertune, Outcome(map[], Some(ValueError)))
    case Some(entries) =>
      var tuning := hypertune || (stage.TrainStage? && "hyperparameters" in entries);
      (tuning, Translate(entries, KeepUserArgs, StageFlags(stage, tuning)))
  }

  /** What submitting leaves: the `success` flag and the exception raised, if any. */
  datatype Submission = Submission(success: Option<bool>, error: Option<Error>)

  /**
   * `submit_job` once the translation's exception (if any) is known: a handler that is not
   * 'mlapi' raises NotImplementedError without touching `success`; otherwise `success` is reset,
   * then set to True when the request returns and to False when it fails with an HTTP error;
   * any other failure propagates.
   */
  function SubmitOutcome(executor: Executor, translation: Option<Error>, outcome: ExecOutcome,
                         before: Option<bool>): (r: Submission)
    ensures r.success == Some(true) <==> if executor.Mlapi? then translation.None? && outcome.Returned?
                                         else before == Some(true)
    ensures r.error.None? <==> executor.Mlapi? && translation.None? && !outcome.OtherFailure?
    ensures !executor.Mlapi? ==> r == Submission(before, Some(NotImplementedError))
    ensures executor.Mlapi? && translation.Some? ==> r == Submission(None, translation)
    ensures executor.Mlapi? && translation.None? && outcome.HttpFailure? ==> r.success == Some(false)
  {
    if !executor.Mlapi? then Submission(before, Some(NotImplementedError))
    else if translation.Some? then Submission(None, translation)
    else match outcome
      case Returned => Submission(Some(true), None)
      case HttpFailure => Submission(Some(false), None)
      case OtherFailure => Submission(None, Some(RemoteError))
  }

  /** A submission through a fresh handler reports success exactly when mlapi returned for a translatable spec. */
  lemma FreshSubmitSuccess(executor: Executor, stage: Stage, ti: Option<map<string, Value>>, outcome: ExecOutcome)
    ensures var r := SubmitOutcome(executor, Translation(stage, false, ti).1.error, outcome, None);
            && (r.success == Some(true) <==> executor.Mlapi? && ti.Some? && outcome.Returned?
                                              && Translation(stage, false, ti).1.error.None?)
            && (ti.None? && executor.Mlapi? ==> r.error == Some(ValueError))
  {
  }

  /** `JobHandler`: the executor, the project, the request built last and the outcome flag. */
  class JobHandler {
    const executor: Executor
    const stage: Stage
    const projectId: Value
    var hypertune: bool
    var jobRequest: Option<JobRequest>
    var success: Option<bool>

    constructor (executor: Executor, stage: Stage, projectId: Value)
      ensures this.executor == executor && this.stage == stage && this.projectId == projectId
      ensures !hypertune && jobRequest.None? && success.None?
    {
      this.executor := executor;
      this.stage := stage;
      this.projectId := projectId;
      hypertune := false;
      jobRequest := None;
      success := None;
    }

    /** `translate_job_specs(job_spec)`: rewrites the spec's `trainingInput` in place. */
    method TranslateJobSpecs(spec: Option<JobSpec>) returns (err: Option<Error>)
      modifies this`hypertune, if spec.Some? then {spec.value.trainingInput} else {}
      ensures spec.None? ==> err == Some(ValueError) && hypertune == old(hypertune)
      ensures spec.Some? ==>
                var (tuning, out) := Translation(stage, old(hypertune), Some(old(spec.value.trainingInput.entries)));
                hypertune == tuning && spec.value.trainingInput.entries == out.entries && err == out.error
    {
      if spec.None? {
        return Some(ValueError);
      }
      var ti := spec.value.trainingInput;
      if stage.TrainStage? && "hyperparameters" in ti.entries {
        hypertune := true;
      }
      err := TranslateInPlace(ti, KeepUserArgs, StageFlags(stage, hypertune));
    }

    /** `create_job_request(job_spec)`: resets `success`, translates, then builds the create request. */
    method CreateJobRequest(spec: Option<JobSpec>) returns (err: Option<Error>)
      modifies this, if spec.Some? then {spec.value.trainingInput} else {}
      ensures success.None?
      ensures var (tuning, out) := Translation(stage, old(hypertune),
                                               if spec.Some? then Some(old(spec.value.trainingInput.entries)) else None);
              && hypertune == tuning && err == out.error
              && (spec.Some? ==> spec.value.trainingInput.entries == out.entries)
              && (err.None? ==> jobRequest == Some(JobRequest("projects/" + ToStr(projectId), spec.value)))
              && (err.Some? ==> jobRequest == old(jobRequest))
    {
      success := None;
      err := TranslateJobSpecs(spec);
      if err.None? {
        jobRequest := Some(JobRequest("projects/" + ToStr(projectId), spec.value));
      }
    }

    /** `_exe_job_mlapi()`: executes the request built last; there is none to execute before the first. */
    method ExeJobMlapi(outcome: ExecOutcome) returns (err: Option<Error>)
      modifies this`success
      ensures jobRequest.None? ==> err == Some(AttributeError) && success == old(success)
      ensures jobRequest.Some? ==> match outcome
                                   case Returned => success == Some(true) && err.None?
                                   case HttpFailure => success == Some(false) && err.None?
                                   case OtherFailure => success == old(success) && err == Some(RemoteError)
    {
      if jobRequest.None? {
        return Some(AttributeError);
      }
      match outcome
      case Returned =>
        success := Some(true);
        err := None;
      case HttpFailure =>
        success := Some(false);
        err := None;
      case OtherFailure =>
        err := Some(RemoteError);
    }

    /** `_execute_job_request()`: only 'mlapi' is implemented. */
    method ExecuteJobRequest(outcome: ExecOutcome) returns (err: Option<Error>)
      modifies this`success
      ensures !executor.Mlapi? ==> err == Some(NotImplementedError) && success == old(success)
      ensures executor.Mlapi? && jobRequest.Some? ==>
                Submission(success, err) == SubmitOutcome(executor, None, outcome, old(success))
                || (outcome.OtherFailure? && success == old(success) && err == Some(RemoteError))
    {
      if !executor.Mlapi? {
        return Some(NotImplementedError);
      }
      err := ExeJobMlapi(outcome);
    }

    /** `submit_job(job_spec)`: with 'mlapi', builds the request then executes it. */
    method SubmitJob(spec: Option<JobSpec>, outcome: ExecOutcome) returns (err: Option<Error>)
      modifies this, if spec.Some? then {spec.value.trainingInput} else {}
      ensures !executor.Mlapi? ==> err == Some(NotImplementedError) && success == old(success)
                                   && hypertune == old(hypertune) && jobRequest == old(jobRequest)
      ensures executor.Mlapi? ==>
                var (tuning, out) := Translation(stage, old(hypertune),
                                                 if spec.Some? then Some(old(spec.value.trainingInput.entries)) else None);
                && hypertune == tuning
                && Submission(success, err) == SubmitOutcome(executor, out.error, outcome, old(success))
                && (spec.Some? ==> spec.value.trainingInput.entries == out.entries)
                && (out.error.None? ==> jobRequest == Some(JobRequest("projects/" + ToStr(projectId), spec.value)))
    {
      if executor.Mlapi? {
        err := CreateJobRequest(spec);
        if err.Some? {
          return;
        }
      }
      err := ExecuteJobRequest(outcome);
    }
  }

  /**
   * A package job handler's constructor: the deployment's `PROJECT_ID` is read first (KeyError
   * when absent); the train and post-processing handlers default to no executor at all.
   */
  method NewJobHandler(globals: map<string, Value>, executor: Executor, stage: Stage) returns (r: Result<JobHandler>)
    ensures "PROJECT_ID" !in globals ==> r == Err(KeyError)
    ensures "PROJECT_ID" in globals ==> r.Ok? && fresh(r.value) && r.value.executor == executor
                                        && r.value.stage == stage && r.value.projectId == globals["PROJECT_ID"]
                                        && !r.value.hypertune && r.value.jobRequest.None? && r.value.success.None?
  {
    if "PROJECT_ID" !in globals {
      return Err(KeyError);
    }
    var handler := new JobHandler(executor, stage, globals["PROJECT_ID"]);
    return Ok(handler);
  }
}
