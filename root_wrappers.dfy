/**
 * The stage functions of wrappers.py at the repository root: `poll` as the package runs it
 * but addressed by the caller's project id, the status check of `train`, the flattening in
 * `selection` and the submission and status loops of `score`. The handlers' work for a stage
 * is an oracle here: the job id and `success` flag of the train submission, and the answer
 * of each score submission.
 */
module RootWrappers {
  import opened Results
  import opened PyStr
  import opened Values
  import opened Utils
  import opened Monitor
  import opened PkgWrappers
  import opened JobNames

  // ---------------------------------------------------------------- poll

  /**
   * `poll(time_interval, project_id, jobs)`: the request name is `'projects/' + project_id +
   * ...`, built before the first fetch of every job, so a project id that is not a string
   * raises TypeError as soon as there is a job; otherwise the sweep and retry loop of the
   * package `poll`.
   */
  function ProjectPollSpec(projectId: Value, jobs: seq<string>, script: seq<Fetch>): (r: PollOutcome)
    ensures |jobs| > 0 && !projectId.Str? ==> r == Raised(TypeError)
    ensures r.Finished? ==> && r.status.Valid()
                            && (forall k :: k in r.status.states <==> k in jobs)
                            && forall k :: k in r.status.states ==> Terminal(r.status.states[k])
  {
    if |jobs| > 0 && !projectId.Str? then Raised(TypeError)
    else
      var polled := PollSpec(jobs, script);
      if polled.Finished? then PollFinished(jobs, script, 0, None); polled
      else polled
  }

  /** With a string project id, or no job to name, the root `poll` is the package's. */
  lemma ProjectPollIsPoll(projectId: Value, jobs: seq<string>, script: seq<Fetch>)
    requires projectId.Str? || jobs == []
    ensures ProjectPollSpec(projectId, jobs, script) == PollSpec(jobs, script)
  {
  }

  /** The root `poll` loop. */
  method ProjectPoll(projectId: Value, jobs: seq<string>, script: seq<Fetch>) returns (r: PollOutcome)
    ensures r == ProjectPollSpec(projectId, jobs, script)
  {
    if |jobs| > 0 && !projectId.Str? {
      return Raised(TypeError);
    }
    r := Poll(jobs, script);
  }

  // ---------------------------------------------------------------- train

  /**
   * `train` (wrappers.py): the inputs as the package `train` builds them, then the oracle
   * submission (its job id and the handler's `success`), ValueError unless accepted, `poll`
   * over that one job, ValueError if it FAILED, else the list of SUCCEEDED jobs.
   */
  function RootTrainSpec(atom: string, trainFiles: Value, masterType: Value, hyperspace: Value, projectId: Value,
                         submission: Result<(string, Option<bool>)>, script: seq<Fetch>): (r: StageResult<seq<string>>)
    ensures TrainInputs(atom, trainFiles, masterType, hyperspace).Err? ==>
              r == Threw(TrainInputs(atom, trainFiles, masterType, hyperspace).error)
    ensures TrainInputs(atom, trainFiles, masterType, hyperspace).Ok? && submission.Err? ==> r == Threw(submission.error)
    ensures r.Done? ==> submission.Ok? && submission.value.1 == Some(true)
  {
    match TrainInputs(atom, trainFiles, masterType, hyperspace)
    case Err(e) => Threw(e)
    case Ok(_) =>
      match submission
      case Err(e) => Threw(e)
      case Ok((id, success)) =>
        if success != Some(true) then Threw(ValueError)
        else
          match ProjectPollSpec(projectId, [id], script)
          case Raised(e) => Threw(e)
          case OutOfScript => Unfinished
          case Finished(status) =>
            match JobAssessment(status)
            case Ok(succeeded) => Done(succeeded)
            case Err(e) => Threw(e)
  }

  /** Two distinct entries cannot both be `x`. Proof aid. */
  lemma DistinctHasOther(s: seq<string>, x: string)
    requires forall i, j :: 0 <= i < j < |s| ==> s[i] != s[j]
    ensures |s| >= 2 ==> s[0] != x || s[1] != x
  {
    if |s| >= 2 {
      assert s[0] != s[1];
    }
  }

  /** The states of a finished poll over one job: exactly that job, in a terminal state. */
  lemma OneJobPolled(projectId: Value, id: string, script: seq<Fetch>)
    requires ProjectPollSpec(projectId, [id], script).Finished?
    ensures var status := ProjectPollSpec(projectId, [id], script).status;
            status.keys == [id] && Terminal(status.states[id])
  {
    var status := ProjectPollSpec(projectId, [id], script).status;
    assert id in status.states;
    assert id in status.keys;
    forall i | 0 <= i < |status.keys| ensures status.keys[i] == id {
      assert status.keys[i] in status.states;
    }
    DistinctHasOther(status.keys, id);
  }

  /**
   * `train` completes exactly when the submission was accepted, the project id names a
   * project and the job SUCCEEDED; it then pushes that one job. A FAILED job raises
   * ValueError.
   */
  lemma RootTrainOutcome(atom: string, trainFiles: Value, masterType: Value, hyperspace: Value, projectId: Value,
                         submission: Result<(string, Option<bool>)>, script: seq<Fetch>)
    requires TrainInputs(atom, trainFiles, masterType, hyperspace).Ok?
    requires submission.Ok? && submission.value.1 == Some(true)
    requires ProjectPollSpec(projectId, [submission.value.0], script).Finished?
    ensures var id := submission.value.0;
            var status := ProjectPollSpec(projectId, [id], script).status;
            var r := RootTrainSpec(atom, trainFiles, masterType, hyperspace, projectId, submission, script);
            && projectId.Str?
            && (status.states[id] == Succeeded ==> r == Done([id]))
            && (status.states[id] == Failed ==> r == Threw(ValueError))
  {
    var id := submission.value.0;
    OneJobPolled(projectId, id, script);
    var status := ProjectPollSpec(projectId, [id], script).status;
    assert status.keys[1..] == [];
    if status.states[id] == Succeeded {
      assert KeysInState(status.keys, status.states, Failed) == [];
      assert KeysInState(status.keys, status.states, Succeeded) == [id];
    }
  }

  /**
   * With no project id (its default), `train` raises TypeError in `poll` right after an
   * accepted submission.
   */
  lemma RootTrainWithoutProject(atom: string, trainFiles: Value, masterType: Value, hyperspace: Value, projectId: Value,
                                submission: Result<(string, Option<bool>)>, script: seq<Fetch>)
    requires TrainInputs(atom, trainFiles, masterType, hyperspace).Ok?
    requires submission.Ok? && submission.value.1 == Some(true)
    requires !projectId.Str?
    ensures RootTrainSpec(atom, trainFiles, masterType, hyperspace, projectId, submission, script) == Threw(TypeError)
  {
  }

  /** A submission that was not accepted raises ValueError before any poll. */
  lemma RootTrainRejected(atom: string, trainFiles: Value, masterType: Value, hyperspace: Value, projectId: Value,
                          id: string, success: Option<bool>, script: seq<Fetch>)
    requires TrainInputs(atom, trainFiles, masterType, hyperspace).Ok?
    requires success != Some(true)
    ensures RootTrainSpec(atom, trainFiles, masterType, hyperspace, projectId, Ok((id, success)), script)
            == Threw(ValueError)
  {
  }

  /** `train` (wrappers.py): the copied inputs, the submitted-jobs list, `poll` and the assessment. */
  method RootTrain(atom: string, trainFiles: Value, masterType: Value, hyperspace: Value, projectId: Value,
                   submission: Result<(string, Option<bool>)>, script: seq<Fetch>) returns (r: StageResult<seq<string>>)
    ensures r == RootTrainSpec(atom, trainFiles, masterType, hyperspace, projectId, submission, script)
  {
    var trainingInput := map["trainFiles" := trainFiles, "scaleTier" := Str("CUSTOM")];
    var currentTrainInput := trainingInput["masterType" := masterType];
    var hyper := HyperEntries(currentTrainInput, atom, hyperspace);
    if hyper.Err? {
      return Threw(hyper.error);
    }
    if submission.Err? {
      return Threw(submission.error);
    }
    var submittedJobs: seq<string> := [];
    if submission.value.1 == Some(true) {
      submittedJobs := submittedJobs + [submission.value.0];
    } else {
      return Threw(ValueError);
    }
    assert submittedJobs == [submission.value.0];
    var polled := ProjectPoll(projectId, submittedJobs, script);
    match polled
    case Raised(e) =>
      r := Threw(e);
    case OutOfScript =>
      r := Unfinished;
    case Finished(status) =>
      var assessment := JobAssessment(status);
      r := if assessment.Ok? then Done(assessment.value) else Threw(assessment.error);
  }

  // ---------------------------------------------------------------- selection

  /** `[item for sublist in lists for item in sublist]` */
  function Flatten(lists: seq<seq<string>>): seq<string>
  {
    if lists == [] then [] else lists[0] + Flatten(lists[1..])
  }

  /** Flattening a concatenation of task lists is concatenating their flattenings. */
  lemma {:induction false} FlattenAppend(a: seq<seq<string>>, b: seq<seq<string>>)
    ensures Flatten(a + b) == Flatten(a) + Flatten(b)
    decreases |a|
  {
    if a == [] {
      assert a + b == b;
    } else {
      assert (a + b)[0] == a[0];
      assert (a + b)[1..] == a[1..] + b;
      FlattenAppend(a[1..], b);
    }
  }

  /** A job is in the flattened list exactly when some task pushed it. */
  lemma {:induction false} FlattenMembership(lists: seq<seq<string>>, x: string)
    ensures x in Flatten(lists) <==> exists i :: 0 <= i < |lists| && x in lists[i]
    decreases |lists|
  {
    if lists != [] {
      FlattenMembership(lists[1..], x);
      if exists i :: 1 <= i < |lists| && x in lists[i] {
        var i :| 1 <= i < |lists| && x in lists[i];
        assert x in lists[1..][i - 1];
      }
    }
  }

  /**
   * Order is kept: the `j`-th job of the `i`-th task sits after every job of the earlier
   * tasks, in its task's order.
   */
  lemma FlattenPosition(lists: seq<seq<string>>, i: nat, j: nat)
    requires i < |lists| && j < |lists[i]|
    ensures |Flatten(lists[..i])| + j < |Flatten(lists)|
    ensures Flatten(lists)[|Flatten(lists[..i])| + j] == lists[i][j]
  {
    assert lists == lists[..i] + lists[i..];
    FlattenAppend(lists[..i], lists[i..]);
    assert lists[i..][0] == lists[i];
  }

  /** The number of jobs is the sum of the tasks' list lengths. */
  lemma {:induction false} FlattenLength(a: seq<seq<string>>, last: seq<string>)
    ensures |Flatten(a + [last])| == |Flatten(a)| + |last|
  {
    FlattenAppend(a, [last]);
    assert [last][1..] == [];
  }

  /** The jobs `selection` collects from the train tasks' pushed lists, in task order. */
  method CollectTrainJobs(pulled: seq<seq<string>>) returns (jobs: seq<string>)
    ensures jobs == Flatten(pulled)
  {
    jobs := [];
    var i := 0;
    while i < |pulled|
      invariant 0 <= i <= |pulled|
      invariant jobs == Flatten(pulled[..i])
    {
      var j := 0;
      while j < |pulled[i]|
        invariant 0 <= j <= |pulled[i]|
        invariant jobs == Flatten(pulled[..i]) + pulled[i][..j]
      {
        jobs := jobs + [pulled[i][j]];
        j := j + 1;
        assert pulled[i][..j] == pulled[i][..j - 1] + [pulled[i][j - 1]];
      }
      assert pulled[i][..j] == pulled[i];
      assert pulled[..i + 1] == pulled[..i] + [pulled[i]];
      FlattenAppend(pulled[..i], [pulled[i]]);
      assert [pulled[i]][1..] == [];
      i := i + 1;
    }
    assert pulled[..i] == pulled;
  }

  // ---------------------------------------------------------------- score

  /**
   * What `score` derives from one selected info file: the algorithm for the score spec handler
   * (shards [4:-1] of the train job) and the train job itself; ValueError without an `info`
   * shard.
   */
  function RootScorePlan(info: string): (r: Result<(string, string)>)
    ensures r.Ok? <==> ModelPathFromInfoPath(info).Ok?
    ensures r.Err? ==> r.error == ValueError
    ensures r.Ok? ==> r.value.1 == TrainJobOfModelPath(ModelPathFromInfoPath(info).value)
                      && r.value.0 == ScoreAlgorithmAsWritten(ModelPathFromInfoPath(info).value)
  {
    var modelPath :- ModelPathFromInfoPath(info);
    Ok((ScoreAlgorithmAsWritten(modelPath), TrainJobOfModelPath(modelPath)))
  }

  /** The plan of each selected info file, in order. */
  function RootPlans(infos: seq<string>): (r: seq<Result<(string, string)>>)
    ensures |r| == |infos| && forall i :: 0 <= i < |infos| ==> r[i] == RootScorePlan(infos[i])
  {
    seq(|infos|, i requires 0 <= i < |infos| => RootScorePlan(infos[i]))
  }

  /**
   * A root train job id built from a truthy `trainFiles`: when its directory segments 3, 4 and 6
   * and the scale tier hold no `_`, the slice [4:-1] of the id's shards gives back the image
   * tag the id was named after, whatever the model file under the id is called.
   */
  lemma RootScoreAlgorithmOfTrainJob(inputs: map<string, Value>, t: Timestamp, file: string)
    requires RootTrainJobName(inputs, t).Ok? && Truthy(inputs["trainFiles"])
    requires var S := Split(inputs["trainFiles"].s, '/'); '_' !in S[3] && '_' !in S[4] && '_' !in S[6]
    requires '_' !in inputs["scaleTier"].s && '/' !in inputs["scaleTier"].s
    ensures var id := RootTrainJobName(inputs, t).value;
            && TrainJobOfModelPath(id + "/" + file) == id
            && ScoreAlgorithmAsWritten(id + "/" + file) == ImageTag(inputs["imageUri"]).value
  {
    var id := RootTrainJobName(inputs, t).value;
    var tag := ImageTag(inputs["imageUri"]).value;
    var tier := Lower(inputs["scaleTier"].s);
    RootTrainJobNameShards(inputs, t);
    var shards := NamedRootIdShards(id, inputs["trainFiles"].s, t, tag, inputs["scaleTier"].s);
    JoinSplit(id, '_');
    RootTrainDirSlice(shards, t, tag, tier, file);
  }

  /**
   * The `_` shards of a root train id named from a directory whose segments 3, 4 and 6 and
   * whose tier hold no `_`: those three segments lowercased, the stamp, the tag's shards, the tier.
   * Proof aid.
   */
  lemma NamedRootIdShards(id: string, dir: string, t: Timestamp, tag: string, tier: string) returns (shards: seq<string>)
    requires var S := Split(dir, '/'); |S| >= 7 && '_' !in S[3] && '_' !in S[4] && '_' !in S[6]
    requires '_' !in tier && '/' !in tier
    requires var S := Split(dir, '/');
             Split(id, '_') == Split(Lower(S[3]), '_') + Split(Lower(S[4]), '_') + Split(Lower(S[6]), '_')
                               + [Stamp(t)] + (Split(tag, '_') + Split(Lower(tier), '_'))
    ensures |shards| == 3 && forall i :: 0 <= i < 3 ==> '_' !in shards[i] && '/' !in shards[i]
    ensures '_' !in Lower(tier) && '/' !in Lower(tier)
    ensures Split(id, '_') == shards + [Stamp(t)] + Split(tag, '_') + [Lower(tier)]
  {
    var S := Split(dir, '/');
    DirSegmentsShards(dir);
    LowerShard(tier);
    shards := [Lower(S[3]), Lower(S[4]), Lower(S[6])];
    Regroup(Split(id, '_'), Lower(S[3]), Lower(S[4]), Lower(S[6]), Stamp(t), Split(tag, '_'), Lower(tier),
            Split(Lower(S[3]), '_'), Split(Lower(S[4]), '_'), Split(Lower(S[6]), '_'), Split(Lower(tier), '_'));
  }

  /** Single-shard splits, regrouped into one list. Proof aid. */
  lemma Regroup<T>(x: seq<T>, a: T, b: T, c: T, d: T, e: seq<T>, f: T, sa: seq<T>, sb: seq<T>, sc: seq<T>, sf: seq<T>)
    requires sa == [a] && sb == [b] && sc == [c] && sf == [f]
    requires x == sa + sb + sc + [d] + (e + sf)
    ensures x == [a, b, c] + [d] + e + [f]
  {
  }

  /** Segments 3, 4 and 6 of a directory, lowercased, when none holds `_`: one `_` shard each, no `/`. Proof aid. */
  lemma DirSegmentsShards(dir: string)
    requires var S := Split(dir, '/'); |S| >= 7 && '_' !in S[3] && '_' !in S[4] && '_' !in S[6]
    ensures var S := Split(dir, '/');
            && Split(Lower(S[3]), '_') == [Lower(S[3])] && Split(Lower(S[4]), '_') == [Lower(S[4])]
            && Split(Lower(S[6]), '_') == [Lower(S[6])]
            && '_' !in Lower(S[3]) && '/' !in Lower(S[3]) && '_' !in Lower(S[4]) && '/' !in Lower(S[4])
            && '_' !in Lower(S[6]) && '/' !in Lower(S[6])
  {
    var S := Split(dir, '/');
    SplitPiecesFree(dir, '/');
    LowerShard(S[3]);
    LowerShard(S[4]);
    LowerShard(S[6]);
  }

  /** A segment without `_` or `/` keeps both out when lowercased, and is one `_` shard. Proof aid. */
  lemma LowerShard(s: string)
    requires '_' !in s && '/' !in s
    ensures '_' !in Lower(s) && '/' !in Lower(s) && Split(Lower(s), '_') == [Lower(s)]
  {
    LowerFree(s, '_');
    LowerFree(s, '/');
    SplitNoSep(Lower(s), '_');
  }

  /**
   * The root train job directory `<shard>_<shard>_<shard>_<stamp>_<image tag>_<tier>`: for
   * shards and a tier without `_`, the slice [4:-1] gives back the image tag.
   * Proof aid.
   */
  lemma RootTrainDirSlice(shards: seq<string>, t: Timestamp, tag: string, tier: string, file: string)
    requires |shards| == 3
    requires forall i :: 0 <= i < 3 ==> '_' !in shards[i] && '/' !in shards[i]
    requires '_' !in tier && '/' !in tier && '/' !in tag
    ensures var dir := Join(shards + [Stamp(t)] + Split(tag, '_') + [tier], "_");
            && TrainJobOfModelPath(dir + "/" + file) == dir
            && ScoreAlgorithmAsWritten(dir + "/" + file) == tag
  {
    var pieces := Split(tag, '_');
    var rest := shards + [Stamp(t)] + pieces + [tier];
    var dir := Join(rest, "_");
    SplitPiecesFree(tag, '_');
    PiecesWithin(tag, '_', '/');
    StampSeparatorFree(t);
    assert forall i :: 0 <= i < |rest| ==> '_' !in rest[i] && '/' !in rest[i] by {
      forall i | 0 <= i < |rest| ensures '_' !in rest[i] && '/' !in rest[i] {
        if i < 3 {
          assert rest[i] == shards[i];
        } else if i == 3 {
          assert rest[i] == Stamp(t);
        } else if i < 4 + |pieces| {
          assert rest[i] == pieces[i - 4];
        } else {
          assert rest[i] == tier;
        }
      }
    }
    JoinFree(rest, "_", '/');
    SplitJoin(rest, '_');
    FirstSegment(dir, file);
    InnerShards(rest);
    assert rest[4..|rest| - 1] == pieces;
    JoinSplit(tag, '_');
  }

  /** The reads of one selected model in `score` (wrappers.py): the listing, then `blobs[0]`. */
  const RootScoreReads: seq<Read> := [ListBlobs, FirstBlob]

  /**
   * `score` (wrappers.py): one submission per selected model (no deployment keys are read),
   * `poll` over the score jobs, then every polled job must have SUCCEEDED; the value maps
   * each score job to its train job. `plans` are `RootPlans(selected_info)`, and `listings`
   * what `list_blobs` gave for each.
   */
  function RootScoreSpec(projectId: Value, plans: seq<Result<(string, string)>>, listings: seq<Listing>,
                         answers: seq<ScoreAnswer>, script: seq<Fetch>): (r: StageResult<StateMap>)
    requires |listings| == |answers| == |plans|
    ensures r.Done? ==> r.value.Valid()
  {
    match ScoreSubmissions(map[], RootScoreReads, plans, listings, answers, 0, EmptyStates, [])
    case Threw(e) => Threw(e)
    case Unfinished => Unfinished
    case Done((submitted, _)) =>
      match ProjectPollSpec(projectId, submitted.keys, script)
      case Raised(e) => Threw(e)
      case OutOfScript => Unfinished
      case Finished(status) =>
        match ScoreStatus(status.keys, status.states, submitted.states, EmptyStates)
        case Ok(successful) => Done(successful)
        case Err(e) => Threw(e)
  }

  /**
   * Once every model is submitted and the poll finishes, `score` completes exactly when every
   * score job SUCCEEDED, and otherwise raises ValueError.
   */
  lemma RootScoreChecksStates(projectId: Value, plans: seq<Result<(string, string)>>, listings: seq<Listing>,
                              answers: seq<ScoreAnswer>, script: seq<Fetch>)
    requires |listings| == |answers| == |plans|
    requires ScoreSubmissions(map[], RootScoreReads, plans, listings, answers, 0, EmptyStates, []).Done?
    requires ProjectPollSpec(projectId, ScoreSubmissions(map[], RootScoreReads, plans, listings, answers, 0, EmptyStates, []).value.0.keys,
                             script).Finished?
    ensures var status := ProjectPollSpec(projectId, ScoreSubmissions(map[], RootScoreReads, plans, listings, answers, 0, EmptyStates, [])
                                                     .value.0.keys, script).status;
            RootScoreSpec(projectId, plans, listings, answers, script).Done?
            <==> forall k :: k in status.states ==> status.states[k] == Succeeded
    ensures RootScoreSpec(projectId, plans, listings, answers, script).Threw? ==>
              RootScoreSpec(projectId, plans, listings, answers, script).error == ValueError
  {
    var submitted := ScoreSubmissions(map[], RootScoreReads, plans, listings, answers, 0, EmptyStates, []).value.0;
    var status := ProjectPollSpec(projectId, submitted.keys, script).status;
    ScoreStatusSpec(status.keys, status.states, submitted.states, EmptyStates);
  }

  /**
   * A completed `score` hands on each accepted score job, and only those, with the train job
   * of the model it scores.
   */
  lemma RootScoreDone(projectId: Value, plans: seq<Result<(string, string)>>, listings: seq<Listing>,
                      answers: seq<ScoreAnswer>, script: seq<Fetch>)
    requires |listings| == |answers| == |plans|
    requires RootScoreSpec(projectId, plans, listings, answers, script).Done?
    ensures var successful := RootScoreSpec(projectId, plans, listings, answers, script).value.states;
            && (forall i :: 0 <= i < |plans| ==> answers[i].Accepted? && answers[i].jobId in successful)
            && forall k :: k in successful ==>
                 exists i :: 0 <= i < |plans| && answers[i] == Accepted(k) && plans[i].Ok?
                             && successful[k] == plans[i].value.1
  {
    var submitted := ScoreSubmissions(map[], RootScoreReads, plans, listings, answers, 0, EmptyStates, []).value.0;
    var status := ProjectPollSpec(projectId, submitted.keys, script).status;
    ScoreStatusKeepsSubmissions(status, submitted);
    ScoreSubmissionsFromEmpty(map[], RootScoreReads, plans, listings, answers);
    assert RootScoreSpec(projectId, plans, listings, answers, script).value.states == submitted.states;
  }

  /**
   * With no project id (its default), `score` raises TypeError in `poll` once at least one
   * model was submitted.
   */
  lemma RootScoreWithoutProject(projectId: Value, plans: seq<Result<(string, string)>>, listings: seq<Listing>,
                                answers: seq<ScoreAnswer>, script: seq<Fetch>)
    requires |listings| == |answers| == |plans| && |plans| > 0 && !projectId.Str?
    requires ScoreSubmissions(map[], RootScoreReads, plans, listings, answers, 0, EmptyStates, []).Done?
    ensures RootScoreSpec(projectId, plans, listings, answers, script) == Threw(TypeError)
  {
    var submitted := ScoreSubmissions(map[], RootScoreReads, plans, listings, answers, 0, EmptyStates, []).value.0;
    ScoreSubmissionsJobs(map[], RootScoreReads, plans, listings, answers, 0, EmptyStates, []);
    assert answers[0].jobId in submitted.states;
    assert answers[0].jobId in submitted.keys;
  }

  /**
   * The first selected model's listing decides `score` before any submission: its own
   * exception, or IndexError when it is empty.
   */
  lemma RootScoreFirstModelReads(projectId: Value, plans: seq<Result<(string, string)>>, listings: seq<Listing>,
                                 answers: seq<ScoreAnswer>, script: seq<Fetch>)
    requires |listings| == |answers| == |plans| && |plans| > 0 && plans[0].Ok?
    ensures listings[0].ListingRaised? ==> RootScoreSpec(projectId, plans, listings, answers, script)
                                           == Threw(listings[0].error)
    ensures listings[0] == NoBlobs ==> RootScoreSpec(projectId, plans, listings, answers, script) == Threw(IndexError)
  {
    assert RootScoreReads[1..][1..] == [];
  }

  /** The submission loop of `score`: one plan, one listing and one answer per selected model. */
  method RootSubmitScores(infos: seq<string>, listings: seq<Listing>, answers: seq<ScoreAnswer>)
    returns (r: StageResult<(StateMap, seq<string>)>)
    requires |listings| == |answers| == |infos|
    ensures r == ScoreSubmissions(map[], RootScoreReads, RootPlans(infos), listings, answers, 0, EmptyStates, [])
  {
    var submittedScoringJobs := EmptyStates;
    var algorithms: seq<string> := [];
    var i := 0;
    while i < |infos|
      invariant 0 <= i <= |infos| && submittedScoringJobs.Valid()
      invariant ScoreSubmissions(map[], RootScoreReads, RootPlans(infos), listings, answers, 0, EmptyStates, [])
                == ScoreSubmissions(map[], RootScoreReads, RootPlans(infos), listings, answers, i, submittedScoringJobs,
                                    algorithms)
    {
      var plan := RootScorePlan(infos[i]);
      if plan.Err? {
        return Threw(plan.error);
      }
      var failed := ReadsError(map[], RootScoreReads, listings[i]);
      if failed.Some? {
        return Threw(failed.value);
      }
      match answers[i]
      case Raising(e) =>
        return Threw(e);
      case Rejected =>
        return Threw(ValueError);
      case Accepted(id) =>
        submittedScoringJobs := submittedScoringJobs.Put(id, plan.value.1);
        algorithms := algorithms + [plan.value.0];
        i := i + 1;
    }
    return Done((submittedScoringJobs, algorithms));
  }

  /** `score` (wrappers.py): submissions, `poll`, then the status loop. */
  method RootScore(projectId: Value, infos: seq<string>, listings: seq<Listing>, answers: seq<ScoreAnswer>,
                   script: seq<Fetch>)
    returns (r: StageResult<StateMap>)
    requires |listings| == |answers| == |infos|
    ensures r == RootScoreSpec(projectId, RootPlans(infos), listings, answers, script)
  {
    var submissions := RootSubmitScores(infos, listings, answers);
    if !submissions.Done? {
      return if submissions.Threw? then Threw(submissions.error) else Unfinished;
    }
    var submittedScoringJobs := submissions.value.0;
    var polled := ProjectPoll(projectId, submittedScoringJobs.keys, script);
    match polled
    case Raised(e) =>
      r := Threw(e);
    case OutOfScript =>
      r := Unfinished;
    case Finished(status) =>
      var checked := CheckScored(status, submittedScoringJobs.states);
      r := if checked.Ok? then Done(checked.value) else Threw(checked.error);
  }
}
