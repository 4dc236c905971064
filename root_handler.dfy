/**
 * handler.py at the repository root, with the job handlers of preprocess.py and predict.py.
 * The base `JobHandler` builds no request and submits nothing through gcloud; the preprocess
 * and score handlers rewrite the spec into a request body for 'mlapi' and build a shell
 * command for 'gcloud'. Whatever project the caller names, the constructor overwrites it
 * with None, so every request's parent is `projects/None`. The kind stands in for the
 * subclass.
 */
module RootHandler {
  import opened Results
  import opened Values
  import opened ArgTranslation
  import opened PkgHandler
  import RootPreprocess
  import RootPredict

  /** Which class the handler is. */
  datatype Kind = BaseHandler | PreprocessHandler | ScoreHandler

  /** How a subclass seeds the request args: the preprocess handler keeps the user args, the score handler starts afresh. */
  function RequestStart(kind: Kind): ArgsStart
  {
    if kind.ScoreHandler? then FreshArgs else KeepUserArgs
  }

  /** The flags a subclass appends to the request args. */
  function RequestFlags(kind: Kind): (r: seq<(string, string)>)
    ensures WellFormedFlags(r)
  {
    if kind.ScoreHandler? then RootPredict.ScoreFlagsWellFormed(); RootPredict.ScoreFlags
    else RootPreprocess.PreprocessFlagsWellFormed(); RootPreprocess.PreprocessFlags
  }

  /** `self.job_request.execute()`: True when it returns, False on an HTTP error; anything else propagates. */
  function Execution(outcome: ExecOutcome, before: Option<bool>): (r: Submission)
    ensures r.error.None? <==> !outcome.OtherFailure?
    ensures r.success == Some(true) <==> outcome.Returned? || (outcome.OtherFailure? && before == Some(true))
  {
    match outcome
    case Returned => Submission(Some(true), None)
    case HttpFailure => Submission(Some(false), None)
    case OtherFailure => Submission(before, Some(RemoteError))
  }

  /**
   * `submit_job(job_spec)` on a handler built by the constructor, as a function of the
   * executor, the spec (its id and `trainingInput`, None for a missing spec), the remote
   * outcome, whether the shell command exits with status 0 and the `success` flag before.
   */
  function SubmitSpec(kind: Kind, executor: Executor, spec: Option<(string, map<string, Value>)>, outcome: ExecOutcome,
                      shellOk: bool, before: Option<bool>): Submission
  {
    match executor
    case Unsupported => Submission(before, Some(NotImplementedError))
    case Gcloud =>
      if kind.BaseHandler? then Submission(before, None)
      else if spec.None? then Submission(before, Some(TypeError))
      else if RootPredict.ScoreCommand(spec.value.0, spec.value.1).Err? then
        Submission(before, Some(RootPredict.ScoreCommand(spec.value.0, spec.value.1).error))
      else if shellOk then Submission(Some(true), None)
      else Submission(before, Some(CalledProcessError))
    case Mlapi =>
      if kind.BaseHandler? then Submission(before, Some(AttributeError))
      else if spec.None? then Submission(before, Some(ValueError))
      else
        var out := Translate(spec.value.1, RequestStart(kind), RequestFlags(kind));
        if out.error.Some? then Submission(before, out.error) else Execution(outcome, None)
  }

  /**
   * A submission reports success exactly when a subclass handler got a spec and either
   * rewrote it and saw the request return ('mlapi'), or built its command and saw the shell
   * succeed ('gcloud'), or when `success` was already True and the call failed before
   * touching it. Only a rewritten 'mlapi' request resets an earlier True.
   */
  lemma SubmitSuccess(kind: Kind, executor: Executor, spec: Option<(string, map<string, Value>)>, outcome: ExecOutcome,
                      shellOk: bool, before: Option<bool>)
    ensures var r := SubmitSpec(kind, executor, spec, outcome, shellOk, before);
            var rewritten := && executor.Mlapi? && !kind.BaseHandler? && spec.Some?
                             && Translate(spec.value.1, RequestStart(kind), RequestFlags(kind)).error.None?;
            r.success == Some(true) <==>
              || (rewritten && outcome.Returned?)
              || (&& executor.Gcloud? && !kind.BaseHandler? && spec.Some?
                  && RootPredict.ScoreCommand(spec.value.0, spec.value.1).Ok? && shellOk)
              || (before == Some(true) && !rewritten)
    ensures var r := SubmitSpec(kind, executor, spec, outcome, shellOk, before);
            r.error.None? <==>
              && (executor.Gcloud? ==> kind.BaseHandler? || (spec.Some? && RootPredict.ScoreCommand(spec.value.0, spec.value.1).Ok? && shellOk))
              && (executor.Mlapi? ==> !kind.BaseHandler? && spec.Some?
                                      && Translate(spec.value.1, RequestStart(kind), RequestFlags(kind)).error.None?
                                      && !outcome.OtherFailure?)
              && !executor.Unsupported?
  {
  }

  /**
   * The base handler never changes `success`: with 'gcloud' it does nothing at all, with
   * 'mlapi' it executes a request it never built (AttributeError).
   */
  lemma BaseNeverSubmits(executor: Executor, spec: Option<(string, map<string, Value>)>, outcome: ExecOutcome,
                         shellOk: bool, before: Option<bool>)
    ensures var r := SubmitSpec(BaseHandler, executor, spec, outcome, shellOk, before);
            && r.success == before
            && r.error == match executor
                          case Gcloud => None
                          case Mlapi => Some(AttributeError)
                          case Unsupported => Some(NotImplementedError)
  {
  }

  /** `JobHandler` and its preprocess and score subclasses. */
  class JobHandler {
    const kind: Kind
    const executor: Executor
    const projectId: Value
    var jobRequest: Option<JobRequest>
    var success: Option<bool>
    /** The shell commands run so far, in order. */
    var commands: seq<string>

    /** Only a subclass builds requests and runs commands. */
    predicate Valid()
      reads this
    {
      kind.BaseHandler? ==> jobRequest.None? && commands == []
    }

    /** `JobHandler(credentials, project_id, job_executor)`: the project id is overwritten with None. */
    constructor (kind: Kind, executor: Executor)
      ensures Valid()
      ensures this.kind == kind && this.executor == executor && projectId == Null
      ensures jobRequest.None? && success.None? && commands == []
    {
      this.kind := kind;
      this.executor := executor;
      projectId := Null;
      jobRequest := None;
      success := None;
      commands := [];
    }

    /**
     * `create_job_request(job_spec)`: nothing for the base handler; a subclass raises
     * ValueError for a missing spec, rewrites the spec in place, then resets `success` and
     * builds the create request.
     */
    method CreateJobRequest(spec: Option<JobSpec>) returns (err: Option<Error>)
      requires Valid()
      modifies this`jobRequest, this`success, if spec.Some? then {spec.value.trainingInput} else {}
      ensures Valid()
      ensures kind.BaseHandler? || spec.None? ==>
                && err == (if kind.BaseHandler? then None else Some(ValueError))
                && success == old(success) && jobRequest == old(jobRequest)
                && (spec.Some? ==> unchanged(spec.value.trainingInput))
      ensures !kind.BaseHandler? && spec.Some? ==>
                var out := Translate(old(spec.value.trainingInput.entries), RequestStart(kind), RequestFlags(kind));
                && spec.value.trainingInput.entries == out.entries && err == out.error
                && (err.Some? ==> success == old(success) && jobRequest == old(jobRequest))
                && (err.None? ==> success.None? && jobRequest == Some(JobRequest("projects/" + ToStr(projectId), spec.value)))
    {
      if kind.BaseHandler? {
        return None;
      }
      if spec.None? {
        return Some(ValueError);
      }
      err := TranslateInPlace(spec.value.trainingInput, RequestStart(kind), RequestFlags(kind));
      if err.Some? {
        return;
      }
      success := None;
      jobRequest := Some(JobRequest("projects/" + ToStr(projectId), spec.value));
    }

    /** `_exe_job_mlapi()`: executes the request built last; there is none before the first. */
    method ExeJobMlapi(outcome: ExecOutcome) returns (err: Option<Error>)
      modifies this`success
      ensures jobRequest.None? ==> err == Some(AttributeError) && success == old(success)
      ensures jobRequest.Some? ==> Submission(success, err) == Execution(outcome, old(success))
    {
      if jobRequest.None? {
        return Some(AttributeError);
      }
      match outcome
      case Returned =>
        success := Some(true);
        err := None;
      case HttpFailure =>
        success := Some(false);
        err := None;
      case OtherFailure =>
        err := Some(RemoteError);
    }

    /**
     * `_exe_job_gcloud(job_spec)`: nothing for the base handler; a subclass builds the
     * command from the spec (TypeError for a missing spec), runs it, and sets `success` once
     * the shell exits with status 0 (CalledProcessError otherwise).
     */
    method ExeJobGcloud(spec: Option<(string, map<string, Value>)>, shellOk: bool) returns (err: Option<Error>)
      requires Valid()
      modifies this`success, this`commands
      ensures Valid()
      ensures Submission(success, err) == SubmitSpec(kind, Gcloud, spec, Returned, shellOk, old(success))
      ensures if !kind.BaseHandler? && spec.Some? && RootPredict.ScoreCommand(spec.value.0, spec.value.1).Ok?
              then commands == old(commands) + [RootPredict.ScoreCommand(spec.value.0, spec.value.1).value]
              else commands == old(commands)
    {
      if kind.BaseHandler? {
        return None;
      }
      if spec.None? {
        return Some(TypeError);
      }
      var command := RootPredict.ScoreCommand(spec.value.0, spec.value.1);
      if command.Err? {
        return Some(command.error);
      }
      commands := commands + [command.value];
      if !shellOk {
        return Some(CalledProcessError);
      }
      success := Some(true);
      err := None;
    }

    /** `_execute_job_request(job_spec)`: dispatches on the executor. */
    method ExecuteJobRequest(spec: Option<(string, map<string, Value>)>, outcome: ExecOutcome, shellOk: bool)
      returns (err: Option<Error>)
      requires Valid()
      modifies this`success, this`commands
      ensures Valid()
      ensures executor.Unsupported? ==> err == Some(NotImplementedError) && success == old(success)
                                        && commands == old(commands)
      ensures executor.Gcloud? ==> Submission(success, err) == SubmitSpec(kind, Gcloud, spec, outcome, shellOk, old(success))
      ensures executor.Gcloud? ==>
                if !kind.BaseHandler? && spec.Some? && RootPredict.ScoreCommand(spec.value.0, spec.value.1).Ok?
                then commands == old(commands) + [RootPredict.ScoreCommand(spec.value.0, spec.value.1).value]
                else commands == old(commands)
      ensures executor.Mlapi? ==> commands == old(commands)
                                  && (jobRequest.None? ==> err == Some(AttributeError) && success == old(success))
                                  && (jobRequest.Some? ==> Submission(success, err) == Execution(outcome, old(success)))
    {
      match executor
      case Gcloud => err := ExeJobGcloud(spec, shellOk);
      case Mlapi => err := ExeJobMlapi(outcome);
      case Unsupported => err := Some(NotImplementedError);
    }

    /**
     * `submit_job(job_spec)`: with 'mlapi' builds the request then executes it; otherwise
     * goes straight to the executor. It ends as SubmitSpec says, and only 'mlapi' rewrites
     * the spec.
     */
    method SubmitJob(spec: Option<JobSpec>, outcome: ExecOutcome, shellOk: bool) returns (err: Option<Error>)
      requires Valid()
      modifies this`jobRequest, this`success, this`commands, if spec.Some? then {spec.value.trainingInput} else {}
      ensures Valid()
      ensures var view := if spec.Some? then Some((spec.value.jobId, old(spec.value.trainingInput.entries))) else None;
              Submission(success, err) == SubmitSpec(kind, executor, view, outcome, shellOk, old(success))
      ensures spec.Some? && executor.Mlapi? && !kind.BaseHandler? ==>
                spec.value.trainingInput.entries
                == Translate(old(spec.value.trainingInput.entries), RequestStart(kind), RequestFlags(kind)).entries
      ensures spec.Some? && (!executor.Mlapi? || kind.BaseHandler?) ==> unchanged(spec.value.trainingInput)
      ensures executor.Gcloud? ==>
                if && !kind.BaseHandler? && spec.Some?
                   && RootPredict.ScoreCommand(spec.value.jobId, old(spec.value.trainingInput.entries)).Ok?
                then commands == old(commands)
                                 + [RootPredict.ScoreCommand(spec.value.jobId, old(spec.value.trainingInput.entries)).value]
                else commands == old(commands)
      ensures !executor.Gcloud? ==> commands == old(commands)
      ensures if && executor.Mlapi? && !kind.BaseHandler? && spec.Some?
                 && Translate(old(spec.value.trainingInput.entries), RequestStart(kind), RequestFlags(kind)).error.None?
              then jobRequest == Some(JobRequest("projects/" + ToStr(projectId), spec.value))
              else jobRequest == old(jobRequest)
    {
      var view := if spec.Some? then Some((spec.value.jobId, spec.value.trainingInput.entries)) else None;
      if executor.Mlapi? {
        err := CreateJobRequest(spec);
        if err.Some? {
          return;
        }
      }
      err := ExecuteJobRequest(view, outcome, shellOk);
    }
  }

  /**
   * The base `JobSpecHandler`: the algorithm, the caller's inputs dict and the project id,
   * and no specs. Its subclasses are RootPreprocess.PreprocessJobSpecHandler,
   * RootPredict.ScoreJobSpecHandler and RootTrain.JobSpecHandler.
   */
  class JobSpecHandler {
    const algorithm: Value
    const inputs: PyDict
    const projectId: Value
    var jobSpecs: Option<JobSpec>

    constructor (algorithm: Value, projectId: Value, inputs: PyDict)
      ensures this.algorithm == algorithm && this.projectId == projectId && this.inputs == inputs
      ensures jobSpecs.None?
    {
      this.algorithm := algorithm;
      this.projectId := projectId;
      this.inputs := inputs;
      jobSpecs := None;
    }

    /** `create_job_specs()` of the base class builds nothing: no spec, the inputs untouched. */
    method CreateJobSpecs()
      ensures jobSpecs == old(jobSpecs) && inputs.entries == old(inputs.entries)
    {
    }
  }
}
