/**
 * gcpaiutils/train/trainjobs.py, the development train handlers. The job handler submits a
 * spec through gcloud (a shell command that never touches `success`) or through the remote
 * API (`success` reset, then True or False); the spec handler reads its inputs from a YAML
 * file, whose parsed contents are a parameter here, and names the job from them and the clock.
 * A spec is `(jobId, trainingInput)`; neither handler changes the inputs dict, so its value is
 * all they need.
 */
module DevTrainJobs {
  import opened Results
  import opened Values
  import opened Utils
  import opened JobNames
  import opened PkgHandler
  import RootHandler
  import RootTrain

  // ---------------------------------------------------------------- the gcloud command

  const ShellPrefix: string := "export PATH=/home/vagrant/google-cloud-sdk/bin:$PATH && "
  const SubmitTraining: string := "gcloud beta ai-platform jobs submit training "

  /** The command line made of its five variable parts. */
  function CommandLine(jobId: string, region: string, image: string, modelDir: string, epochs: string): string
  {
    ShellPrefix + SubmitTraining + jobId + " " + "--region " + region + " " + "--master-image-uri " + image + " "
    + "-- " + "--model-dir=" + modelDir + " " + "--epochs=" + epochs
  }

  /** `x + ' '` and the like: `x` must be a string, TypeError otherwise. */
  function Piece(v: Result<Value>): (r: Result<string>)
    ensures r.Ok? <==> v.Ok? && v.value.Str?
    ensures r.Ok? ==> r.value == v.value.s
  {
    var x :- v;
    StrOperand(x)
  }

  /**
   * `_exe_job_gcloud`'s command: the id, `region`, `imageUri[0]`, `modelDir` and `args[1]`,
   * read in that order, each a string; a missing key raises KeyError, a short list
   * IndexError, anything that is not a string TypeError. A spec of None raises TypeError.
   */
  function Command(spec: Option<(string, map<string, Value>)>): (r: Result<string>)
  {
    if spec.None? then Err(TypeError)
    else
      var (jobId, ti) := spec.value;
      var region :- Piece(Lookup(ti, "region"));
      var imageUri :- Lookup(ti, "imageUri");
      var image :- Piece(Index(imageUri, 0));
      var modelDir :- Piece(Lookup(ti, "modelDir"));
      var args :- Lookup(ti, "args");
      var epochs :- Piece(Index(args, 1));
      Ok(CommandLine(jobId, region, image, modelDir, epochs))
  }

  /**
   * The command is built exactly when `region` and `modelDir` are strings and `imageUri[0]`
   * and `args[1]` are; it is then the command line of those values.
   */
  lemma CommandSpec(jobId: string, ti: map<string, Value>)
    ensures Command(Some((jobId, ti))).Ok? <==>
              && "region" in ti && ti["region"].Str?
              && "imageUri" in ti && Index(ti["imageUri"], 0).Ok? && Index(ti["imageUri"], 0).value.Str?
              && "modelDir" in ti && ti["modelDir"].Str?
              && "args" in ti && Index(ti["args"], 1).Ok? && Index(ti["args"], 1).value.Str?
    ensures Command(Some((jobId, ti))).Ok? ==>
              Command(Some((jobId, ti))).value
              == CommandLine(jobId, ti["region"].s, Index(ti["imageUri"], 0).value.s, ti["modelDir"].s,
                             Index(ti["args"], 1).value.s)
  {
  }

  /**
   * The image is `imageUri[0]`: for a string URI (as the deployment files give it) the
   * command carries only its first character.
   */
  lemma CommandImageIsFirstCharacter(jobId: string, ti: map<string, Value>)
    requires Command(Some((jobId, ti))).Ok?
    requires ti["imageUri"].Str?
    ensures Command(Some((jobId, ti))).value
            == CommandLine(jobId, ti["region"].s, ti["imageUri"].s[..1], ti["modelDir"].s, Index(ti["args"], 1).value.s)
  {
    CommandSpec(jobId, ti);
    assert [ti["imageUri"].s[0]] == ti["imageUri"].s[..1];
  }

  /**
   * The job name reads `modelDir[0]` while the command adds `modelDir` to a string: for
   * inputs the spec handler can name, a list `modelDir` makes the command raise TypeError,
   * and a string `modelDir` names the job after its first character only.
   */
  lemma NameAndCommandDisagreeOnModelDir(ti: map<string, Value>, t: Timestamp, jobId: string)
    requires DevJobName(ti, t).Ok?
    ensures "modelDir" in ti && (ti["modelDir"].List? || ti["modelDir"].Str?)
    ensures ti["modelDir"].List? ==> Command(Some((jobId, ti))).Err?
    ensures ti["modelDir"].List? && "region" in ti && ti["region"].Str? && "imageUri" in ti
            && Index(ti["imageUri"], 0).Ok? && Index(ti["imageUri"], 0).value.Str?
            ==> Command(Some((jobId, ti))) == Err(TypeError)
    ensures ti["modelDir"].Str? ==> |DevJobPieces(ti).value[1]| <= 1
  {
    var modelDir := ti["modelDir"];
    assert Index(modelDir, 0).Ok?;
    if modelDir.Str? {
      var first := Index(modelDir, 0).value.s;
      assert |first| == 1;
      StemShorter(first);
    }
  }

  /** The stem of a path is no longer than the path, and neither is its `-` replacement. Proof aid. */
  lemma StemShorter(x: string)
    ensures |PyStr.ReplaceChar(Stem(x), '-', '_')| <= |x|
  {
    var segments := PyStr.Split(x, '/');
    PyStr.SplitPiecesFree(x, '/');
    LastPieceShorter(x, '/');
    var last := segments[|segments| - 1];
    assert |PyStr.Split(last, '.')[0]| <= |last|;
  }

  /** No piece of a split is longer than the string. Proof aid. */
  lemma {:induction false} LastPieceShorter(s: string, c: char)
    ensures forall i :: 0 <= i < |PyStr.Split(s, c)| ==> |PyStr.Split(s, c)[i]| <= |s|
    decreases |s|
  {
    if s != [] {
      LastPieceShorter(s[1..], c);
    }
  }

  // ---------------------------------------------------------------- submission

  /**
   * `submit_train_job(job_spec)` on a handler built by the constructor, as a function of the
   * executor, the deployment globals, the spec, the remote outcome, whether the shell command
   * exits with status 0 and `success` before. Through gcloud `success` is never set.
   */
  function SubmitSpec(executor: Executor, globals: map<string, Value>, spec: Option<(string, map<string, Value>)>,
                      outcome: ExecOutcome, shellOk: bool, before: Option<bool>): Submission
  {
    match executor
    case Unsupported => Submission(before, Some(NotImplementedError))
    case Gcloud =>
      if Command(spec).Err? then Submission(before, Some(Command(spec).error))
      else if shellOk then Submission(before, None)
      else Submission(before, Some(CalledProcessError))
    case Mlapi =>
      if spec.None? then Submission(before, Some(ValueError))
      else if RootTrain.Credentials(globals).Err? then Submission(None, Some(RootTrain.Credentials(globals).error))
      else RootHandler.Execution(outcome, None)
  }

  /**
   * Only the remote API reports: through gcloud (or an unknown executor) `success` stays
   * what it was, even after a command that ran; through 'mlapi' it is reset, then True when
   * the request returns and False on an HTTP error.
   */
  lemma SubmitSuccess(executor: Executor, globals: map<string, Value>, spec: Option<(string, map<string, Value>)>,
                      outcome: ExecOutcome, shellOk: bool, before: Option<bool>)
    ensures !executor.Mlapi? ==> SubmitSpec(executor, globals, spec, outcome, shellOk, before).success == before
    ensures executor.Gcloud? ==>
              (SubmitSpec(executor, globals, spec, outcome, shellOk, before).error.None? <==> Command(spec).Ok? && shellOk)
    ensures executor.Mlapi? && spec.Some? ==>
              var r := SubmitSpec(executor, globals, spec, outcome, shellOk, before);
              && (r.success == Some(true) <==> RootTrain.Credentials(globals).Ok? && outcome.Returned?)
              && (r.success == Some(false) <==> RootTrain.Credentials(globals).Ok? && outcome.HttpFailure?)
              && (r.success.None? <==> RootTrain.Credentials(globals).Err? || outcome.OtherFailure?)
  {
  }

  /** The request `create_job_request` builds: the parent project and the spec as the body. */
  datatype Request = Request(parent: string, body: (string, map<string, Value>))

  /** `TrainJobHandler` of the development module. */
  class TrainJobHandler {
    const projectName: Value
    const executor: Executor
    const globals: map<string, Value>
    var jobRequest: Option<Request>
    var success: Option<bool>
    /** The shell commands run so far, in order. */
    var commands: seq<string>

    /** `TrainJobHandler(project_name, job_executor)`: no request, no verdict yet. */
    constructor (projectName: Value, executor: Executor, globals: map<string, Value>)
      ensures this.projectName == projectName && this.executor == executor && this.globals == globals
      ensures jobRequest.None? && success.None? && commands == []
    {
      this.projectName := projectName;
      this.executor := executor;
      this.globals := globals;
      jobRequest := None;
      success := None;
      commands := [];
    }

    /**
     * `create_job_request(job_spec)`: ValueError for a missing spec; otherwise resets
     * `success`, reads the credentials path (KeyError or TypeError) and builds the request
     * under `projects/<project name>`.
     */
    method CreateJobRequest(spec: Option<(string, map<string, Value>)>) returns (err: Option<Error>)
      modifies this`jobRequest, this`success
      ensures spec.None? ==> err == Some(ValueError) && success == old(success) && jobRequest == old(jobRequest)
      ensures spec.Some? ==> success.None?
      ensures spec.Some? && RootTrain.Credentials(globals).Err? ==>
                err == Some(RootTrain.Credentials(globals).error) && jobRequest == old(jobRequest)
      ensures spec.Some? && RootTrain.Credentials(globals).Ok? ==>
                err.None? && jobRequest == Some(Request("projects/" + ToStr(projectName), spec.value))
    {
      if spec.None? {
        return Some(ValueError);
      }
      success := None;
      var credentials := RootTrain.Credentials(globals);
      if credentials.Err? {
        return Some(credentials.error);
      }
      jobRequest := Some(Request("projects/" + ToStr(projectName), spec.value));
      err := None;
    }

    /** `_exe_job_mlapi()`: True when the request returns, False on an HTTP error. */
    method ExeJobMlapi(outcome: ExecOutcome) returns (err: Option<Error>)
      modifies this`success
      ensures jobRequest.None? ==> err == Some(AttributeError) && success == old(success)
      ensures jobRequest.Some? ==> Submission(success, err) == RootHandler.Execution(outcome, old(success))
    {
      if jobRequest.None? {
        return Some(AttributeError);
      }
      match outcome
      case Returned =>
        success := Some(true);
        err := None;
      case HttpFailure =>
        success := Some(false);
        err := None;
      case OtherFailure =>
        err := Some(RemoteError);
    }

    /** `_exe_job_gcloud(job_spec)`: builds and runs the command; `success` is left alone. */
    method ExeJobGcloud(spec: Option<(string, map<string, Value>)>, shellOk: bool) returns (err: Option<Error>)
      modifies this`commands
      ensures Submission(success, err) == SubmitSpec(Gcloud, globals, spec, Returned, shellOk, success)
      ensures if Command(spec).Ok? then commands == old(commands) + [Command(spec).value] else commands == old(commands)
    {
      var command := Command(spec);
      if command.Err? {
        return Some(command.error);
      }
      commands := commands + [command.value];
      if !shellOk {
        return Some(CalledProcessError);
      }
      err := None;
    }

    /** `_execute_job_request(job_spec)`: 'gcloud', 'mlapi', or NotImplementedError. */
    method ExecuteJobRequest(spec: Option<(string, map<string, Value>)>, outcome: ExecOutcome, shellOk: bool)
      returns (err: Option<Error>)
      modifies this`success, this`commands
      ensures executor.Unsupported? ==> err == Some(NotImplementedError) && success == old(success)
                                        && commands == old(commands)
      ensures executor.Gcloud? ==>
                Submission(success, err) == SubmitSpec(Gcloud, globals, spec, outcome, shellOk, old(success))
      ensures executor.Gcloud? ==>
                if Command(spec).Ok? then commands == old(commands) + [Command(spec).value] else commands == old(commands)
      ensures executor.Mlapi? ==> commands == old(commands)
                                  && (jobRequest.None? ==> err == Some(AttributeError) && success == old(success))
                                  && (jobRequest.Some? ==> Submission(success, err) == RootHandler.Execution(outcome, old(success)))
    {
      match executor
      case Gcloud => err := ExeJobGcloud(spec, shellOk);
      case Mlapi => err := ExeJobMlapi(outcome);
      case Unsupported => err := Some(NotImplementedError);
    }

    /** `submit_train_job(job_spec)`: it ends as SubmitSpec says. */
    method SubmitTrainJob(spec: Option<(string, map<string, Value>)>, outcome: ExecOutcome, shellOk: bool)
      returns (err: Option<Error>)
      modifies this`jobRequest, this`success, this`commands
      ensures Submission(success, err) == SubmitSpec(executor, globals, spec, outcome, shellOk, old(success))
      ensures executor.Mlapi? && err.None? ==> jobRequest == Some(Request("projects/" + ToStr(projectName), spec.value))
      ensures if executor.Mlapi? && spec.Some? && RootTrain.Credentials(globals).Ok?
              then jobRequest == Some(Request("projects/" + ToStr(projectName), spec.value))
              else jobRequest == old(jobRequest)
      ensures executor.Gcloud? ==>
                if Command(spec).Ok? then commands == old(commands) + [Command(spec).value] else commands == old(commands)
      ensures !executor.Gcloud? ==> commands == old(commands)
    {
      if executor.Mlapi? {
        err := CreateJobRequest(spec);
        if err.Some? {
          return;
        }
      }
      err := ExecuteJobRequest(spec, outcome, shellOk);
    }
  }

  // ---------------------------------------------------------------- the spec handler

  /**
   * `create_job_specs(yaml_file_path)` on the inputs held before: the file is read only when
   * no inputs are held and a path is given; still None raises ValueError; inputs that are not
   * a dict raise TypeError at the first lookup; then the job is named. The first component is
   * the inputs held afterwards, whatever happens next.
   */
  function CreateSpecs(held: Value, yamlPath: Option<string>, loaded: Value, t: Timestamp)
    : (r: (Value, Result<(string, map<string, Value>)>))
    ensures held.Null? && yamlPath.Some? ==> r.0 == loaded
    ensures !(held.Null? && yamlPath.Some?) ==> r.0 == held
    ensures r.1.Ok? ==> r.0.Dict? && r.1.value.1 == r.0.fields && DevJobName(r.0.fields, t) == Ok(r.1.value.0)
    ensures r.0.Null? ==> r.1 == Err(ValueError)
  {
    var inputs := if held.Null? && yamlPath.Some? then loaded else held;
    if inputs.Null? then (inputs, Err(ValueError))
    else if !inputs.Dict? then (inputs, Err(TypeError))
    else match DevJobName(inputs.fields, t)
      case Err(e) => (inputs, Err(e))
      case Ok(id) => (inputs, Ok((id, inputs.fields)))
  }

  /**
   * Inputs once held are kept: a later call ignores the file, and with no file at all a fresh
   * handler can only raise ValueError.
   */
  lemma CreateSpecsKeepsInputs(held: Value, yamlPath: Option<string>, loaded: Value, loaded': Value, t: Timestamp)
    ensures !held.Null? ==> CreateSpecs(held, yamlPath, loaded, t) == CreateSpecs(held, None, loaded', t)
    ensures CreateSpecs(Null, None, loaded, t) == (Null, Err(ValueError))
  {
  }

  /** `JobSpecHandler` of the development module. */
  class JobSpecHandler {
    const projectName: Value
    var trainInputs: Value
    var jobSpecs: Option<(string, map<string, Value>)>

    /** `JobSpecHandler(project_name)`: no inputs, no specs. */
    constructor (projectName: Value)
      ensures this.projectName == projectName && trainInputs.Null? && jobSpecs.None?
    {
      this.projectName := projectName;
      trainInputs := Null;
      jobSpecs := None;
    }

    /** `create_job_specs(yaml_file_path)`, with `loaded` the parsed file. */
    method CreateJobSpecs(yamlPath: Option<string>, loaded: Value, t: Timestamp) returns (err: Option<Error>)
      modifies this
      ensures var r := CreateSpecs(old(trainInputs), yamlPath, loaded, t);
              && trainInputs == r.0
              && (r.1.Ok? ==> err.None? && jobSpecs == Some(r.1.value))
              && (r.1.Err? ==> err == Some(r.1.error) && jobSpecs == old(jobSpecs))
    {
      if trainInputs.Null? && yamlPath.Some? {
        trainInputs := loaded;
      }
      if trainInputs.Null? {
        return Some(ValueError);
      }
      if !trainInputs.Dict? {
        return Some(TypeError);
      }
      var id := DevJobName(trainInputs.fields, t);
      if id.Err? {
        return Some(id.error);
      }
      jobSpecs := Some((id.value, trainInputs.fields));
      err := None;
    }
  }
}
