# A Dafny model of the job-spec, submission and polling core of gcpaiutils

The repository drives a machine-learning batch pipeline on Google AI Platform. The stages
are data evaluation, train, selection, score and aggregation. Each stage is a wrapper
function. It fills a job specification from the caller's inputs and a layered
configuration, names the job, and submits it through a job handler (the remote API,
'mlapi', or a `gcloud` shell command). It then polls every submitted job until each one is
SUCCEEDED or FAILED, and raises when any job failed. The logic exists twice: in the
`gcpaiutils/` package and in an older copy at the repository root. The two copies differ in
observable ways, so both are modelled, module by module:

| Dafny module | file | source |
|---|---|---|
| `Results`, `PyStr`, `Values` | results.dfy, pystr.dfy, values.dfy | Python's exceptions, string operations (`split`, `join`, `lower`, `replace`, `str`, slicing, `list.index`), dict values and the in-place dict `PyDict` |
| `Utils` | utils.dfy | gcpaiutils/utils.py, utils.py |
| `JobNames` | job_names.dfy | every `_generate_job_name` |
| `SpecDefaults` | spec_defaults.dfy | the fill loop shared by every `create_job_specs`, the registry lookup of the constructors |
| `ArgTranslation` | arg_translation.dfy | the in-place rewrite of `trainingInput` shared by `translate_job_specs` / `create_job_request` |
| `Monitor` | monitor.dfy | `poll` in gcpaiutils/wrappers.py and wrappers.py |
| `PkgHandler`, `PkgTrain`, `PkgPostprocess`, `PkgWrappers` | pkg_*.dfy | gcpaiutils/handler.py, train.py, postprocess.py, wrappers.py |
| `RootHandler`, `RootTrain`, `RootPreprocess`, `RootPredict`, `RootWrappers` | root_*.dfy | handler.py, train.py, preprocess.py, predict.py, wrappers.py |
| `DevTrainJobs` | dev_train_jobs.dfy | gcpaiutils/train/trainjobs.py |

How the model represents the program:
- A Python exception is an `Error` value in a `Result`. A stage ends as `Done`, `Threw(error)` or
  `Unfinished`. `Unfinished` means the script of remote answers ran out.
- The dict a spec handler fills is the caller's own dict, and `job_specs['trainingInput']` is
  that same dict. It is therefore a `PyDict` object that the handlers update in place.
- The handlers are classes. Their `success`, `job_request` and `job_specs` fields change as the
  source's do.
- Every loop of the source is a method with invariants. Each method is proved equal to a
  specification function, and the lemmas state the properties of that function.
- The remote API is an oracle passed in:
  - a `seq<Fetch>` script of status-fetch results for `poll`;
  - an `ExecOutcome` (returned, HTTP error, other exception) for `request.execute()`;
  - per-model answers for the submissions the score stages make.
- The clock is a `Timestamp` parameter. The loaded YAML configuration is a set of immutable maps (`Config`).

Behaviour of the code that the model keeps as written:
- A package job id keeps the algorithm verbatim, upper case and all
  (gcpaiutils/handler.py:109). The anonymous form has no `_` between the prefix and the
  stamp (gcpaiutils/handler.py:111).
- A default missing from the configuration raises `KeyError` from the dict lookup.
- Each key of a spec has one source: the globals for the general keys, the algorithm's
  defaults for the others (gcpaiutils/train.py:79-89).
- The remote backend catches only `HttpError`; any other failure of `execute()` propagates
  (gcpaiutils/handler.py:48-54).
- The development train handler's `gcloud` path never sets `success`
  (gcpaiutils/train/trainjobs.py:50-60).

## Model

| member | source | states |
|---|---|---|
| Utils.HardwareConfig | gcpaiutils/utils.py:57-84 | fails exactly for an unrecognised atom or a size above 3 GB, always with TypeError (the source raises a tuple) |
| Utils.HardwareConfigIsTableLookup | gcpaiutils/utils.py:58-82 | the if/elif chain equals a lookup of the first tier whose bound covers the size, in each family's tier table (0.1/1/3, 0.5/1/3, 0.1/3 GB) |
| Utils.TierIndexMonotone | gcpaiutils/utils.py:57-82 | a larger size never lands on an earlier tier of a table |
| Utils.HardwareMonotone | gcpaiutils/utils.py:57-82 | if a size is served then every smaller size is served, by a tier no later in the family's chain |
| Utils.AtomNameFromDir | gcpaiutils/utils.py:45-48 | fails (IndexError) exactly when the directory has no `/` |
| Utils.AtomNameOfDir | gcpaiutils/utils.py:45-48 | for `.../<shards joined by _>/<last>` the atom is shards [4:-1] joined by `_` |
| Utils.AtomNameOfFiveShardDir | utils.py:1-4 | a job name of exactly five shards yields the empty atom |
| Utils.ModelPathFromInfoPath | gcpaiutils/utils.py:51-54 | fails with ValueError exactly when no shard of the text before the first `.` is `info` |
| Utils.ModelPathOfInfoName | utils.py:7-10 | `pre_info_post.ext` maps back to `pre/model_post.pkl`, whatever the extension |
| Utils.KeysInState | gcpaiutils/utils.py:159-160 | the filtered keys are exactly the keys in the given state, never more than the keys |
| Utils.KeysInStateAppend | gcpaiutils/utils.py:159-160 | filtering keeps iteration order: the filter of a concatenation is the concatenation of filters |
| Utils.KeysInStateOrder | gcpaiutils/utils.py:159-160 | the filtered keys are a subsequence of the keys: iteration order is kept |
| Utils.JobAssessment | gcpaiutils/utils.py:158-165 | ValueError exactly when some job FAILED; otherwise the result holds exactly the SUCCEEDED jobs, in the order of the status keys |
| Utils.Pad2 | gcpaiutils/utils.py:135-139 | digits only; below 100 it is two characters that read back as the number |
| Utils.TimestampComponents | gcpaiutils/utils.py:130-141 | the year is unpadded; the other five fields have two characters each |
| Utils.Stamp | gcpaiutils/utils.py:134-139 | the concatenated stamp is all digits |
| Utils.StampLayout | gcpaiutils/utils.py:134-139 | with a four-digit year the stamp is 14 digits and every field reads back from its position |
| Utils.StampInjective | gcpaiutils/utils.py:134-139 | different clock readings give different stamps |
| Values.Lookup | gcpaiutils/train.py:81-85 | `m[k]` succeeds exactly for a present key, with its value; KeyError otherwise |
| Values.Get | gcpaiutils/train.py:85-89 | `v[k]` succeeds only on a dict holding the key; KeyError or TypeError otherwise |
| Values.StrReceiver | train.py:74 | a string method succeeds exactly on a string; AttributeError otherwise |
| Values.StrOperand | train.py:71-85 | `str + v` succeeds exactly for a string operand; TypeError otherwise |
| Values.StrEntry | train.py:71-85 | `'...' + m[k]`: KeyError when missing, TypeError for a non-string, the string otherwise |
| Values.Index | train.py:110 | `v[i]` picks a one-character string of a string or an element of a list, with Python's errors otherwise |
| Values.PyDict.constructor | gcpaiutils/wrappers.py:83-86 | a new dict holds exactly the given entries |
| Values.StateMap.Put | gcpaiutils/wrappers.py:57 | `status[job] = state` keeps the keys distinct and in insertion order; a new key goes last |
| Monitor.Retry | gcpaiutils/wrappers.py:48-56 | the retry loop stops within the ten attempts left and consumes a fetch on each attempt |
| Monitor.Sweep | gcpaiutils/wrappers.py:46-58 | one round records a well-formed status, consumes at least one fetch per job, and stops only at the end of the script or on UnboundLocalError |
| Monitor.SweepKeys | gcpaiutils/wrappers.py:44-57 | a round's status holds exactly the keys it started with plus the jobs it swept |
| Monitor.SweepTerminal | gcpaiutils/wrappers.py:57-60 | a round that ends all-terminal recorded only SUCCEEDED/FAILED states for the jobs it swept |
| Monitor.PollFinished | gcpaiutils/wrappers.py:42-67 | a finished poll reports exactly one state per job, and every state is SUCCEEDED or FAILED |
| Monitor.PollNoJobs | gcpaiutils/wrappers.py:42-67 | polling no job returns an empty status at once |
| Monitor.RetryAllFailed | gcpaiutils/wrappers.py:48-56 | ten failed fetches end the retries with `jobs_info` unchanged |
| Monitor.SweepStaleState | gcpaiutils/wrappers.py:57 | a job whose ten fetches fail is recorded with the last state fetched for any job |
| Monitor.PollUnbound | gcpaiutils/wrappers.py:52-57 | when the first job's ten fetches all fail, `poll` raises UnboundLocalError |
| Monitor.SweepFetched | gcpaiutils/wrappers.py:50-58 | the first successful fetch ends a job's retries and is what the round records |
| Monitor.FetchState | gcpaiutils/wrappers.py:48-56 | the retry loop as written ends as Retry describes |
| Monitor.SweepRound | gcpaiutils/wrappers.py:44-58 | the `for job in jobs` loop as written ends as Sweep describes |
| Monitor.Poll | gcpaiutils/wrappers.py:42-67 | the `while still_running` loop as written ends as PollSpec describes |
| SpecDefaults.OriginOf | gcpaiutils/train.py:79-91 | NotImplementedError exactly for a key in no branch; a global key is read from the globals, `modelDir` from `MODEL_BUCKET_ADDRESS` where the chain says so |
| SpecDefaults.Resolve | gcpaiutils/train.py:79-89 | resolving a missing key fails only with KeyError or TypeError |
| SpecDefaults.Fill | gcpaiutils/train.py:75-91 | an explicit key is never overwritten; only plan keys are added; on success every plan key is present; failures are KeyError, TypeError or NotImplementedError |
| SpecDefaults.FillInputs | gcpaiutils/train.py:75-91 | the loop on the shared dict ends in the state Fill describes |
| SpecDefaults.FillFromOrigin | gcpaiutils/train.py:79-87 | a missing key gets the value of its own origin |
| SpecDefaults.FillFromGlobal | gcpaiutils/train.py:79-83 | a missing global key gets the deployment's value under its origin's name |
| SpecDefaults.FillFromDefault | gcpaiutils/train.py:84-85 | a missing default key gets the algorithm's entry for it |
| SpecDefaults.FillFromHyper | gcpaiutils/train.py:86-87 | a missing `hyperparameters` gets the algorithm's hyper-tune template |
| SpecDefaults.FillMetricTag | gcpaiutils/train.py:88-89 | a missing `hypertuneLoss` is the metric tag of whatever `hyperparameters` the filled dict holds |
| SpecDefaults.FillMetricTagAt | gcpaiutils/train.py:88-89 | the same, once `hyperparameters` is already present |
| SpecDefaults.FillSucceeds | gcpaiutils/train.py:75-91 | a fill of distinct keys succeeds exactly when every missing key is classified and resolves |
| SpecDefaults.ResolveIgnoresOtherKeys | gcpaiutils/train.py:79-87 | only the metric-tag branch reads the dict being filled |
| SpecDefaults.AppendToModelDir | gcpaiutils/train.py:96 | suffixing `modelDir` succeeds exactly for a string `modelDir` (KeyError or TypeError otherwise) and changes no other key |
| SpecDefaults.NamedSpecs | gcpaiutils/train.py:93-97 | a spec is named exactly when the fill, the name and the suffix succeed; the first failure is reported; only `modelDir` changes |
| SpecDefaults.RegistryImage | gcpaiutils/train.py:62-65 | a registry or algorithm missing from the deployment gives ValueError, never KeyError; otherwise the entry or its element |
| JobNames.Clean | gcpaiutils/handler.py:106-108 | the cleaned id has no `-` and no upper-case letter, and gains no character outside `a-z` |
| JobNames.RequestId | gcpaiutils/handler.py:106-108 | succeeds exactly for a dict holding a string id; KeyError exactly for a missing key |
| JobNames.PkgJobName | gcpaiutils/handler.py:100-111 | request ids None raise TypeError; a KeyError never escapes |
| JobNames.PkgJobNameTotal | gcpaiutils/handler.py:105-111 | with string ids the name never fails, and a missing id gives `anonymous_<prefix><stamp>_<algorithm>` |
| JobNames.PkgJobNameNonStringId | gcpaiutils/handler.py:106 | a present but non-string id raises AttributeError |
| JobNames.PkgJobNameShards | gcpaiutils/handler.py:105-109 | the id splits into the prefix, the three cleaned ids, the stamp and the algorithm's shards, algorithm verbatim at the end |
| JobNames.PkgJobNameOfIds | gcpaiutils/handler.py:105-109 | with the three ids the id is the six pieces joined by `_` |
| JobNames.DropFirstShard | gcpaiutils/train.py:96 | an id without `_` leaves nothing |
| JobNames.PkgJobNameDropPrefix | gcpaiutils/train.py:96 | dropping the prefix of a named id leaves `user_problem_version_stamp_algorithm` |
| JobNames.DirShards | train.py:167-168 | IndexError exactly for fewer than seven `/` segments; otherwise segments 3, 4 and 6 lowercased |
| JobNames.StampedName | preprocess.py:104-111 | fails exactly when the tail fails or a truthy directory is unusable: AttributeError for a non-string, IndexError for fewer than seven segments, else the tail's error; the id splits into the lead (or fallback), the directory's three lowercased segments, the stamp and the tail |
| JobNames.LowerField | train.py:171 | the lowercased string of a present string field; KeyError when missing, AttributeError for a non-string |
| JobNames.ImageTag | train.py:170 | the tag after `:` of the first image's last path segment, without `/` or upper case; IndexError for an empty list or no `:`, AttributeError for a non-string first image |
| JobNames.RootTrainJobName | train.py:153-175 | succeeds exactly with `trainFiles` usable and the tag and tier present; KeyError without `trainFiles`; no upper-case letter |
| JobNames.RootTrainTail | train.py:170-171 | succeeds exactly with an image tag and a string tier; splits into the tag's shards then the lowercased tier's |
| JobNames.RootTrainNameLower | train.py:166-175 | lowercased pieces give a lowercased id |
| JobNames.RootTrainJobNameShards | train.py:166-175 | the root train id splits into segments 3, 4 and 6 of `trainFiles` lowercased, the stamp, the tag and the tier; `j`, the stamp and the tail for a falsy `trainFiles` |
| JobNames.PreprocessJobName | preprocess.py:104-111 | succeeds exactly with `trainFiles` usable and a string tier, KeyError when either is missing; starts `preprocess_` for truthy `trainFiles`, `preprocessjob_` otherwise |
| JobNames.PreprocessJobNameShards | preprocess.py:104-111 | the id splits into `preprocess`, segments 3, 4 and 6 of `trainFiles` lowercased, the stamp, the algorithm and the tier; `preprocessjob`, the stamp and the tail otherwise |
| JobNames.ScoreJobName | predict.py:101-108 | succeeds exactly with `scoreDir` usable and a string tier, KeyError when either is missing; starts `score_` for a truthy `scoreDir`, `scorejob_` otherwise |
| JobNames.ScoreJobNameShards | predict.py:101-108 | the id splits into `score`, segments 3, 4 and 6 of `scoreDir` lowercased, the stamp, the algorithm and the tier; `scorejob`, the stamp and the tail otherwise |
| JobNames.DevJobNameDev | gcpaiutils/train/trainjobs.py:93-102 | `j` then digits only; 15 characters whose year reads back for a four-digit year |
| JobNames.Stem | gcpaiutils/train/trainjobs.py:117-118 | a stem holds no `/` and no `.` |
| JobNames.DevJobPieces | gcpaiutils/train/trainjobs.py:116-118 | KeyError without `scaleTier`, TypeError for a non-string one; the pieces are the tier verbatim, the stem of `modelDir[0]` with `-` made `_`, and the stem of `str(args[1])` |
| JobNames.DevJobName | gcpaiutils/train/trainjobs.py:104-119 | fails exactly as its pieces do; the id splits into the pieces' shards then the stamp, which is the last shard |
| JobNames.DevJobNameShards | gcpaiutils/train/trainjobs.py:116-119 | three pieces and the stamp joined by `_` split back into the pieces' shards and the stamp |
| ArgTranslation.PrefixNames | gcpaiutils/train.py:34-36 | every even-index arg gets `--` through `str`; odd ones are unchanged; the length is kept |
| ArgTranslation.PrefixArgNames | gcpaiutils/train.py:34-36 | the in-place loop over the args list ends as PrefixNames describes |
| ArgTranslation.NormalizeArgs | gcpaiutils/train.py:31-36 | None becomes `[]` and a list is prefixed, both extendable; an empty string or dict passes the loop but cannot take `+=`; a non-empty dict raises KeyError, anything else TypeError |
| ArgTranslation.MoveImage | gcpaiutils/train.py:30 | the image moves under `masterConfig`; a missing image raises KeyError and changes nothing |
| ArgTranslation.StartArgs | gcpaiutils/train.py:31-36 | a fresh start is `[]`; kept user args are normalised, KeyError when `args` is missing |
| ArgTranslation.AppendToUnextendable | gcpaiutils/train.py:37 | with args that cannot take `+=`, the first flag's key is popped before the TypeError; KeyError when it is missing |
| ArgTranslation.FlagPairs | gcpaiutils/train.py:37-40 | two values per flag, in flag order |
| ArgTranslation.AppendFlagsError | gcpaiutils/train.py:37-40 | appending the flags fails exactly when a flag's key is missing, with KeyError |
| ArgTranslation.AppendFlagsKeys | gcpaiutils/train.py:37-40 | a successful append pops every flag key and keeps all other keys but `args` |
| ArgTranslation.AppendFlagsArgs | gcpaiutils/train.py:37-40 | the args end with every flag/value pair, in order |
| ArgTranslation.AppendFlagsSpec | gcpaiutils/train.py:37-40 | the two lemmas above together, with the failure condition |
| ArgTranslation.FlagPairsFrame | gcpaiutils/train.py:37-40 | the appended pairs depend only on the flag keys |
| ArgTranslation.TranslateSpec | gcpaiutils/train.py:30-40 | the rewrite fails exactly without the image, usable args or a flag key; an empty string or dict as args loses the first flag's key; a success puts the image under `masterConfig`, the seeded args then every pair, pops the flag keys and keeps the rest |
| ArgTranslation.TranslateKeepsArgsEven | gcpaiutils/train.py:31-40 | an even number of user args stays even |
| ArgTranslation.StartTranslation | gcpaiutils/train.py:30-36 | the image move and the args seeding on the shared dict, reporting args that cannot take `+=` |
| ArgTranslation.AppendFlag | gcpaiutils/train.py:37 | one `args += [flag, pop(key)]` on the shared dict |
| ArgTranslation.TranslateInPlace | gcpaiutils/train.py:23-42 | the in-place rewrite, including the pop before a failing `+=`, ends in the state Translate describes |
| PkgHandler.StageFlags | gcpaiutils/train.py:37-40 | each stage's flags pop distinct keys |
| PkgHandler.Translation | gcpaiutils/train.py:23-42 | ValueError for a missing spec; tuning becomes set for good once a spec has `hyperparameters` |
| PkgHandler.SubmitOutcome | gcpaiutils/handler.py:66-69 | non-'mlapi' raises NotImplementedError with `success` untouched; 'mlapi' resets it, then True on return, False on an HTTP error |
| PkgHandler.FreshSubmitSuccess | gcpaiutils/handler.py:48-69 | a fresh handler reports success exactly when 'mlapi' returned for a translatable spec |
| PkgHandler.JobHandler.constructor | gcpaiutils/handler.py:23-37 | no request and `success` None; tuning starts off |
| PkgHandler.JobHandler.TranslateJobSpecs | gcpaiutils/train.py:23-42 | the spec's dict ends as Translation says; the tuning flag is updated |
| PkgHandler.JobHandler.CreateJobRequest | gcpaiutils/handler.py:56-60 | resets `success` to None, translates, then builds the request |
| PkgHandler.JobHandler.ExeJobMlapi | gcpaiutils/handler.py:48-54 | True on return, False on an HTTP error, other failures propagate; no request yet raises AttributeError |
| PkgHandler.JobHandler.ExecuteJobRequest | gcpaiutils/handler.py:39-43 | only 'mlapi' executes; anything else raises NotImplementedError |
| PkgHandler.JobHandler.SubmitJob | gcpaiutils/handler.py:66-69 | builds a request only for 'mlapi' and then executes; ends as SubmitOutcome says |
| PkgHandler.NewJobHandler | gcpaiutils/handler.py:23-37 | KeyError without `PROJECT_ID`; otherwise a fresh handler with `success` None |
| PkgTrain.TrainFlags | gcpaiutils/train.py:37-40 | the train flags pop distinct keys |
| PkgTrain.TrainTranslation | gcpaiutils/train.py:26-27 | the handler is tuning afterwards exactly when it was before or the spec has `hyperparameters` |
| PkgTrain.TrainTranslationSpec | gcpaiutils/train.py:30-40 | image under `masterConfig`; args are the prefixed user args, `--model-dir`, `--train-files` and, when tuning, `--hypertune-loss`; those keys popped |
| PkgTrain.TrainFlagPairs | gcpaiutils/train.py:37-40 | the appended pairs and popped keys, spelled out for tuning and not |
| PkgTrain.TrainTranslationKeepsArgsEven | gcpaiutils/train.py:31-40 | even user args stay even |
| PkgTrain.TrainSpecs | gcpaiutils/train.py:68-97 | explicit keys are kept (only `modelDir` may change), and only plan keys are added |
| PkgTrain.SpecItemsLayout | gcpaiutils/train.py:70-72 | the plan is the three global keys, the two default keys and, when tuning, the two hyper keys, all distinct |
| PkgTrain.TrainSpecsGlobals | gcpaiutils/train.py:79-83 | missing `scaleTier` and `region` come from the globals, `modelDir` from `MODEL_BUCKET_ADDRESS` |
| PkgTrain.TrainSpecsAlgorithmDefaults | gcpaiutils/train.py:84-85 | missing `args` and `trainFiles` come from the algorithm's defaults |
| PkgTrain.TrainOrigins | gcpaiutils/train.py:79-91 | how the train chain classifies each plan key |
| PkgTrain.TrainSpecsHyper | gcpaiutils/train.py:86-87 | when tuning, a missing `hyperparameters` is the algorithm's template |
| PkgTrain.TrainSpecsLoss | gcpaiutils/train.py:88-89 | when tuning, a missing `hypertuneLoss` is the metric tag of the spec's hyperparameters |
| PkgTrain.TrainSpecsModelDir | gcpaiutils/train.py:94-96 | the id uses prefix `train`; with `append_job_id` `modelDir` gains the id minus its first shard and `/`, otherwise it is unchanged |
| PkgTrain.TrainSpecsWithoutRequestIds | gcpaiutils/train.py:94 | with request ids None a filled spec raises TypeError |
| PkgTrain.TrainJobSpecHandler.constructor | gcpaiutils/train.py:58-66 | the handler holds the caller's dict and no specs |
| PkgTrain.TrainJobSpecHandler.CreateJobSpecs | gcpaiutils/train.py:68-97 | fills the shared dict as TrainSpecs says; sets `job_specs` on success, keeps it on failure |
| PkgTrain.NewTrainJobSpecHandler | gcpaiutils/train.py:58-66 | KeyError without `PROJECT_ID`; ValueError for an algorithm missing from `ATOMS`; otherwise the first image is stored in the caller's dict |
| PkgPostprocess.PostprocessFlagsWellFormed | gcpaiutils/postprocess.py:34-35 | the post-processing flags pop distinct keys |
| PkgPostprocess.PostprocessTranslationSpec | gcpaiutils/postprocess.py:27-35 | image under `masterConfig`; args are the prefixed user args, `--score-dir`, `--output-dir`; both keys popped |
| PkgPostprocess.PostprocessSpecs | gcpaiutils/postprocess.py:62-82 | explicit keys are kept; the id uses prefix `postprocess` |
| PkgPostprocess.PostprocessSpecsNoModelDir | gcpaiutils/postprocess.py:72-73 | no `modelDir` is ever added |
| PkgPostprocess.SpecItemsLayout | gcpaiutils/postprocess.py:4-5 | the plan's five distinct keys, in order |
| PkgPostprocess.PostprocessSpecsGlobals | gcpaiutils/postprocess.py:71-75 | missing `scaleTier` and `region` come from the globals |
| PkgPostprocess.PostprocessOrigins | gcpaiutils/postprocess.py:71-79 | how the post-processing chain classifies each plan key |
| PkgPostprocess.PostprocessSpecsAlgorithmDefaults | gcpaiutils/postprocess.py:76-77 | missing `args`, `scoreDir` and `outputDir` come from the algorithm's defaults |
| PkgPostprocess.PostprocessJobSpecHandler.constructor | gcpaiutils/postprocess.py:54-60 | the handler holds the caller's dict and no specs |
| PkgPostprocess.PostprocessJobSpecHandler.CreateJobSpecs | gcpaiutils/postprocess.py:62-82 | fills the shared dict as PostprocessSpecs says; sets `job_specs` on success |
| PkgPostprocess.NewPostprocessJobSpecHandler | gcpaiutils/postprocess.py:54-60 | ValueError for an algorithm missing from `POSTPROCESS`; otherwise the first image is stored in the caller's dict |
| PkgWrappers.Assessed | gcpaiutils/wrappers.py:292-299 | ValueError unless `success` is True; completes only when every job SUCCEEDED, with exactly those jobs; a FAILED job raises ValueError |
| PkgWrappers.ScoreStatus | gcpaiutils/wrappers.py:226-231 | the status loop keeps the result a well-formed dict |
| PkgWrappers.ScoreStatusSpec | gcpaiutils/wrappers.py:226-231 | the check passes exactly when every state is SUCCEEDED, and then maps each job, and only those, to its train job |
| PkgWrappers.ScoreStatusKeepsSubmissions | gcpaiutils/wrappers.py:226-229 | over exactly the submitted jobs a passing check returns the submissions unchanged |
| PkgWrappers.CheckScored | gcpaiutils/wrappers.py:226-231 | the loop as written ends as ScoreStatus describes |
| PkgWrappers.TrainJobOfModelPath | gcpaiutils/wrappers.py:219 | the train job is a `/`-free segment |
| PkgWrappers.ScoreAlgorithmRoundTrip | gcpaiutils/wrappers.py:212 | the corrected slice recovers the algorithm of the train job a model comes from, whatever the model file is called |
| PkgWrappers.ScoreAlgorithmAsWrittenDropsLastShard | gcpaiutils/wrappers.py:212 | the slice as written drops the algorithm's last `_` shard |
| PkgWrappers.ScorePlan | gcpaiutils/wrappers.py:200-219 | fails exactly when the info name has no `info` shard; otherwise the corrected algorithm and the train job of the model path |
| PkgWrappers.AssessJobs | gcpaiutils/wrappers.py:298-299 | poll then assess, as Assessed says |
| PkgWrappers.OneJobTail | gcpaiutils/wrappers.py:499-511 | a build or submit exception propagates; completion needs an accepted submission |
| PkgWrappers.CheckAndPoll | gcpaiutils/wrappers.py:102-108 | the list append, rejection and poll as written end as OneJobTail says |
| PkgWrappers.FreshSubmission | gcpaiutils/wrappers.py:100-101 | accepted exactly when the request returned for a translatable spec; False only on an HTTP error |
| PkgWrappers.BucketPath | gcpaiutils/wrappers.py:264-265 | KeyError exactly without `MODEL_BUCKET_NAME`; otherwise the `gs://` path |
| PkgWrappers.HyperEntries | gcpaiutils/wrappers.py:93-95 | no entries without a hyperspace; otherwise the atom's template and its metric tag, or KeyError/TypeError |
| PkgWrappers.BuiltTrainSpec | gcpaiutils/wrappers.py:285-289 | a built spec's id is the package train name for the request ids; KeyError without `PROJECT_ID` |
| PkgWrappers.TrainNewInputsSpec | gcpaiutils/wrappers.py:262-283 | a built dict holds the train files, the MODELS directory, the CUSTOM tier, the sized machine and the hyper keys exactly when tuning |
| PkgWrappers.SubmittedTrain | gcpaiutils/wrappers.py:285-291 | the submitted id is the package train name; accepted only when the request returned |
| PkgWrappers.TrainNewSpec | gcpaiutils/wrappers.py:250-299 | KeyError without `MODEL_BUCKET_NAME`; completes only after the request returned; an HTTP rejection raises |
| PkgWrappers.TrainNewDone | gcpaiutils/wrappers.py:285-299 | a completed run pushes only the job named after the ids, stamp and atom, and that job SUCCEEDED |
| PkgWrappers.SubmitFresh | gcpaiutils/wrappers.py:290-291 | the fresh handler's submission ends as FreshSubmission says |
| PkgWrappers.BuildTrainSpec | gcpaiutils/wrappers.py:285-289 | the constructor and fill on the shared dict end as BuiltTrainSpec says |
| PkgWrappers.SubmitTrain | gcpaiutils/wrappers.py:285-291 | build then submit, as SubmittedTrain says |
| PkgWrappers.BuildTrainNewInputs | gcpaiutils/wrappers.py:262-283 | the dict built step by step is the one TrainNewInputs describes |
| PkgWrappers.TrainNew | gcpaiutils/wrappers.py:250-299 | the whole stage ends as TrainNewSpec says |
| PkgWrappers.TrainNeverSubmits | gcpaiutils/wrappers.py:97-99 | `train` always raises before submitting: TypeError from the job name when nothing earlier fails |
| PkgWrappers.SubmitTrainStage | gcpaiutils/wrappers.py:82-101 | `train` up to its submission ends as TrainSubmission says |
| PkgWrappers.Train | gcpaiutils/wrappers.py:70-117 | the whole stage ends as TrainSpec says |
| PkgWrappers.SubmittedAggregation | gcpaiutils/wrappers.py:456-463 | the submitted id is the `postprocess` name built for `aggregator`; accepted only when the request returned |
| PkgWrappers.SelectorLookup | gcpaiutils/utils.py:168-184 | TypeError for non-string request ids, then KeyError without AI_PLATFORM_SA, the credentials' error, KeyError without PROJECT_ID or MODEL_BUCKET_NAME, then the listing's error (ValueError, IndexError); otherwise the selection |
| PkgWrappers.AggregateNewSpec | gcpaiutils/wrappers.py:437-475 | the selector lookup's error comes first (KeyError without PROJECT_ID whatever the aggregation); then any aggregation other than `average` raises NotImplementedError; only `average` submits |
| PkgWrappers.AggregateNewDone | gcpaiutils/wrappers.py:456-473 | a completed run pushes only the `postprocess` job for `aggregator`, which SUCCEEDED |
| PkgWrappers.BuildAggregationSpec | gcpaiutils/wrappers.py:456-461 | KeyError without `PROJECT_ID`, else the registry image's error, else PostprocessSpecs' id and entries in a fresh dict |
| PkgWrappers.SubmitAggregation | gcpaiutils/wrappers.py:444-463 | the `scoreInput` dict, build and submission end as SubmittedAggregation says |
| PkgWrappers.SubmitAverage | gcpaiutils/wrappers.py:454-469 | the aggregation check and submission end as AggregationChoice says |
| PkgWrappers.AggregateNew | gcpaiutils/wrappers.py:428-475 | the selector lookup, inputs, check and submission as written end as AggregateNewSpec says |
| PkgWrappers.Plans | gcpaiutils/wrappers.py:197-212 | one plan per selected info file, in order |
| PkgWrappers.ReadsErrorFirst | gcpaiutils/wrappers.py:205-208 | a model's reads fail exactly when one of them fails, and then with the exception of the first that fails, every read before it having succeeded |
| PkgWrappers.BucketReadsOrder | gcpaiutils/wrappers.py:205-208 | a model's reads fail in source order: missing MODEL_BUCKET_NAME, then the listing's own exception, then missing MODEL_BUCKET_ADDRESS, then IndexError for an empty listing, then the missing `outputDir` bucket key |
| PkgWrappers.ScoreSubmissions | gcpaiutils/wrappers.py:197-222 | the loop's result stays a well-formed dict |
| PkgWrappers.ScoreSubmissionsDone | gcpaiutils/wrappers.py:197-222 | the loop completes exactly when every remaining plan builds, each model's reads succeed and every submission is accepted |
| PkgWrappers.ScoreSubmissionsListed | gcpaiutils/wrappers.py:205-208 | a completed loop over the bucket reads found a blob for every model and had every submission accepted |
| PkgWrappers.ScoreSubmissionsAlgorithms | gcpaiutils/wrappers.py:212 | a completed loop hands each model's corrected algorithm to the spec handler, in order |
| PkgWrappers.ScoreSubmissionsStep | gcpaiutils/wrappers.py:197-222 | a completed loop took its first step: the plan was there, the reads succeeded and the answer was a job |
| PkgWrappers.ScoreSubmissionsJobs | gcpaiutils/wrappers.py:218-219 | every accepted job and every earlier key is a key of the dict |
| PkgWrappers.ScoreSubmissionsOrigins | gcpaiutils/wrappers.py:218-219 | every key maps to the train job of a model it was accepted for, or is an earlier entry |
| PkgWrappers.ScoreSubmissionsFromEmpty | gcpaiutils/wrappers.py:195-219 | from an empty dict, exactly the accepted jobs are bound, each to its model's train job |
| PkgWrappers.SubmitScores | gcpaiutils/wrappers.py:197-222 | the loop as written ends as ScoreSubmissions says |
| PkgWrappers.ScoreChecksStates | gcpaiutils/wrappers.py:224-231 | once all models are submitted and the poll finishes, `score` completes exactly when every score job SUCCEEDED |
| PkgWrappers.ScoreDone | gcpaiutils/wrappers.py:197-231 | a completed `score` hands on exactly the accepted score jobs, each with its model's train job |
| PkgWrappers.ScoreFirstModelReads | gcpaiutils/wrappers.py:205-208 | for the first model, `score` raises KeyError without MODEL_BUCKET_NAME, then the listing's exception, then KeyError without MODEL_BUCKET_ADDRESS, then IndexError for an empty listing, then KeyError without CORE_BUCKET_NAME |
| PkgWrappers.Score | gcpaiutils/wrappers.py:168-231 | the stage ends as ScoreSpec says |
| PkgWrappers.ScoreNewDone | gcpaiutils/wrappers.py:382-425 | the selector lookup's error comes first; `score_new` completes only when every model was listed and submitted, and pushes exactly the accepted jobs; a missing MODEL_BUCKET_ADDRESS raises KeyError once the first listing did not raise |
| PkgWrappers.ScoreNewFirstModelReads | gcpaiutils/wrappers.py:399-402 | after the lookup, the first model's listing exception comes first, then KeyError without MODEL_BUCKET_ADDRESS, then IndexError for an empty listing |
| PkgWrappers.ScoreNewCompleted | gcpaiutils/wrappers.py:393-425 | a completed `score_new` found a blob and had a job accepted for every model, and pushes exactly those jobs |
| PkgWrappers.SelectionPlans | gcpaiutils/wrappers.py:386-396 | Ok exactly when the selection was read, with one plan per selected model |
| PkgWrappers.ScoreNew | gcpaiutils/wrappers.py:358-425 | the stage ends as ScoreNewSpec says |
| RootHandler.RequestFlags | predict.py:55-58 | each subclass's flags pop distinct keys |
| RootHandler.Execution | handler.py:39-45 | True on return, False on an HTTP error, other failures propagate |
| RootHandler.SubmitSuccess | handler.py:50-53 | from any earlier `success`: True exactly when a subclass's request returned or its shell succeeded, or when it was already True and no 'mlapi' request was rewritten (which resets it); no error exactly on the paths that raise nothing |
| RootHandler.BaseNeverSubmits | handler.py:36-48 | the base handler never changes `success`; 'mlapi' raises AttributeError |
| RootHandler.JobHandler.constructor | handler.py:18-26 | `_project_id` ends None although it was assigned first; `success` is None |
| RootHandler.JobHandler.CreateJobRequest | predict.py:48-63 | nothing for the base class; ValueError for a missing spec; the rewrite, then `success` reset and a request built |
| RootHandler.JobHandler.ExeJobMlapi | handler.py:39-45 | executes the last request; none yet raises AttributeError |
| RootHandler.JobHandler.ExeJobGcloud | predict.py:26-46 | nothing for the base class; the subclass runs its command and sets `success` on exit status 0 |
| RootHandler.JobHandler.ExecuteJobRequest | handler.py:28-34 | 'gcloud' ends as SubmitSpec says and appends the built command (subclass only); 'mlapi' executes the last request (AttributeError without one) and runs nothing; otherwise NotImplementedError and no change |
| RootHandler.JobHandler.SubmitJob | handler.py:50-53 | ends as SubmitSpec says; only a subclass under 'mlapi' rewrites the spec and, when the rewrite succeeds, sets the request under `projects/<id>`; the request is kept otherwise; only 'gcloud' appends a command, and only when a subclass built one |
| RootHandler.JobSpecHandler.constructor | handler.py:70-74 | the fields are as given and there are no specs |
| RootHandler.JobSpecHandler.CreateJobSpecs | handler.py:79-80 | the base class builds nothing and leaves the inputs untouched |
| RootTrain.TrainSpecs | train.py:177-201 | explicit keys are kept (only `modelDir` may change); only plan keys are added; a built id has no upper-case letter |
| RootTrain.SpecItemsLayout | train.py:179-181 | the plan's keys, in order, distinct |
| RootTrain.TrainOrigins | train.py:188-195 | how the root train chain classifies each key |
| RootTrain.TrainSpecsModelDir | train.py:198-200 | a named job's `modelDir` is the filled directory, the whole id and `/` |
| RootTrain.TrainSpecsGlobals | train.py:188-189 | missing general keys come from the globals under their own names, `modelDir` included |
| RootTrain.TrainSpecsAlgorithmDefaults | train.py:190-191 | missing `args` and `trainFiles` come from the algorithm's defaults |
| RootTrain.TrainSpecsHyper | train.py:192-193 | when tuning, a missing `hyperparameters` is the algorithm's template |
| RootTrain.JobSpecHandler.constructor | train.py:140-151 | the handler holds the caller's dict and no specs |
| RootTrain.JobSpecHandler.CreateJobSpecs | train.py:177-201 | fills and suffixes the shared dict as TrainSpecs says |
| RootTrain.NewJobSpecHandler | train.py:140-151 | stores the algorithm's whole `ATOMS` list, or ValueError |
| RootTrain.AppendPair | train.py:111-112 | appends one nested `[flag, value]` pair, or KeyError / AttributeError |
| RootTrain.TrainRequestSpec | train.py:106-112 | succeeds exactly with a first image and list args, `modelDir` and `trainFiles`; args then end with two nested pairs and those keys are gone |
| RootTrain.TrainRequestInPlace | train.py:110-112 | the rewrite on the shared dict ends as TrainRequest says |
| RootTrain.ArgsElements | train.py:89 | what `enumerate(args)` walks, and the errors of non-iterables |
| RootTrain.UserArgsSpec | train.py:88-91 | the walk succeeds exactly for even args with string names, one flag per pair; IndexError exactly for well-named odd args |
| RootTrain.UserArgsStep | train.py:89-91 | one step of the walk takes the pair at an even position |
| RootTrain.UserArgsAdvance | train.py:89-91 | the accumulated flags gain the pair's flag |
| RootTrain.UserArgsLoop | train.py:88-91 | the loop as written ends as UserArgs says |
| RootTrain.TrainCommandHead | train.py:69-85 | the pieces are the prefix, `gcloud`, the id, region, first image, lowercased tier, the master type for `custom`, `-- `, model dir and train files; the first failing field decides the error (KeyError, TypeError, AttributeError for the tier, the index error of the image list) |
| RootTrain.TrainCommandSpec | train.py:93-94 | the command builds exactly when the head builds, the args walk and the handler is not tuning |
| RootTrain.BuildTrainCommand | train.py:68-94 | the command as the method builds it, as TrainCommand says |
| RootTrain.Credentials | train.py:55-58 | the credentials path must be a string deployment entry |
| RootTrain.TrainSubmitSuccess | train.py:120-123 | a fresh handler succeeds exactly when the request returned ('mlapi') or the shell succeeded ('gcloud') |
| RootTrain.TrainJobHandler.constructor | train.py:45-53 | no request, `success` None, not tuning |
| RootTrain.TrainJobHandler.CreateJobRequest | train.py:106-118 | ValueError for a missing spec; the rewrite, `success` reset, the credentials, the request |
| RootTrain.TrainJobHandler.ExeJobMlapi | train.py:98-104 | True on return, False on an HTTP error |
| RootTrain.TrainJobHandler.ExeJobGcloud | train.py:68-96 | builds and runs the command; `success` set after exit status 0 |
| RootTrain.TrainJobHandler.ExecuteJobRequest | train.py:60-66 | 'gcloud' ends as TrainSubmitSpec says and appends the built command; 'mlapi' executes the last request (AttributeError without one) and runs nothing; otherwise NotImplementedError and no change |
| RootTrain.TrainJobHandler.SubmitTrainJob | train.py:120-123 | ends as TrainSubmitSpec says; only 'mlapi' rewrites the spec, and sets the request under `projects/<name>` when the rewrite and the credentials succeed, keeping it otherwise; only 'gcloud' appends a command, when one is built |
| RootPreprocess.PreprocessSpecs | preprocess.py:113-136 | explicit keys are kept (only `modelDir` may change), and only plan keys are added |
| RootPreprocess.SpecItemsLayout | preprocess.py:8-9 | the plan's keys in order, distinct |
| RootPreprocess.PreprocessOrigins | preprocess.py:122-130 | `modelDir` from `MODEL_BUCKET_ADDRESS`, the rest as listed |
| RootPreprocess.PreprocessSpecsModelDir | preprocess.py:133-135 | a named job's `modelDir` is the filled directory, the id minus its first shard and `/` |
| RootPreprocess.PreprocessSpecsName | preprocess.py:104-111 | a named spec holds `trainFiles` and a string tier; its id starts `preprocess_` (truthy `trainFiles`) or `preprocessjob_`, and splits into the lead, the directory's segments 3, 4 and 6 lowercased, the stamp, the algorithm and the tier |
| RootPreprocess.PreprocessSpecsGlobals | preprocess.py:122-126 | missing `scaleTier`, `region` from the globals, `modelDir` from `MODEL_BUCKET_ADDRESS` |
| RootPreprocess.PreprocessSpecsAlgorithmDefaults | preprocess.py:127-128 | missing `args` and `trainFiles` from the algorithm's defaults |
| RootPreprocess.PreprocessJobSpecHandler.constructor | preprocess.py:83-89 | the handler holds the caller's dict and no specs |
| RootPreprocess.PreprocessJobSpecHandler.CreateJobSpecs | preprocess.py:113-136 | fills and suffixes the shared dict as PreprocessSpecs says |
| RootPreprocess.NewPreprocessJobSpecHandler | preprocess.py:83-89 | stores the first `PREPROCESS` image, or ValueError |
| RootPreprocess.PreprocessFlagsWellFormed | preprocess.py:60-61 | the flags pop distinct keys |
| RootPreprocess.PreprocessRequestSpec | preprocess.py:53-61 | image under `masterConfig`; None args become `[]`; prefixed args then flat `--model-dir` and `--train-files` pairs; keys popped |
| RootPredict.ScoreSpecs | predict.py:110-129 | explicit keys are kept unchanged; no `modelDir` appears or vanishes; a named spec holds every plan key |
| RootPredict.SpecItemsLayout | predict.py:8-9 | the plan's keys in order, distinct |
| RootPredict.ScoreOrigins | predict.py:119-124 | two globals, the rest per-algorithm defaults |
| RootPredict.ScoreSpecsGlobals | predict.py:119-120 | missing `scaleTier`, `region` from the globals |
| RootPredict.ScoreSpecsAlgorithmDefaults | predict.py:121-122 | missing score keys from the algorithm's defaults |
| RootPredict.ScoreSpecsName | predict.py:101-108 | a named spec holds `scoreDir` and a string tier; its id starts `score_` (truthy `scoreDir`) or `scorejob_`, and splits into the lead, the directory's segments 3, 4 and 6 lowercased, the stamp, the algorithm and the tier |
| RootPredict.ScoreJobSpecHandler.constructor | predict.py:80-86 | the handler holds the caller's dict and no specs |
| RootPredict.ScoreJobSpecHandler.CreateJobSpecs | predict.py:110-129 | fills the shared dict as ScoreSpecs says |
| RootPredict.NewScoreJobSpecHandler | predict.py:80-86 | stores the first `SCORING` image, or ValueError |
| RootPredict.ScoreUserFlags | predict.py:38-41 | the four user flags in fixed order; the first missing or non-string field decides the error |
| RootPredict.MachineType | predict.py:33-36 | `--master-machine-type` exactly for the `custom` tier |
| RootPredict.ScoreCommandParts | predict.py:27-44 | the pieces are the prefix, `gcloud`, the id, region, image, lowercased tier, the master type for `custom`, `-- ` and the four user flags; the first failing field decides the error (KeyError, TypeError, AttributeError for the tier) |
| RootPredict.ScoreCommand | predict.py:43-44 | the command is the concatenation of its pieces |
| RootPredict.ScoreFlagsWellFormed | predict.py:55-58 | the four flags pop distinct keys, exactly the four defaults |
| RootPredict.ScoreFlagPairs | predict.py:55-58 | the flags find their keys exactly when the four are present, and then append eight values |
| RootPredict.ScoreRequestSpec | predict.py:53-58 | succeeds exactly with the image and the four keys; then exactly eight args (user args discarded) and the four keys popped |
| RootWrappers.ProjectPollSpec | wrappers.py:25-51 | a non-string project id raises TypeError as soon as there is a job; otherwise the package poll |
| RootWrappers.ProjectPollIsPoll | wrappers.py:25-51 | with a string project id, or no job, the root poll is the package poll |
| RootWrappers.ProjectPoll | wrappers.py:25-51 | the loop as written ends as ProjectPollSpec says |
| RootWrappers.RootTrainSpec | wrappers.py:54-91 | the inputs' and the submission's exceptions propagate; the stage completes only after an accepted submission |
| RootWrappers.OneJobPolled | wrappers.py:82 | a finished poll over one job reports exactly that job, in a terminal state |
| RootWrappers.RootTrainOutcome | wrappers.py:76-91 | after an accepted submission and a finished poll the project id was a string; a SUCCEEDED job completes the stage with its id, a FAILED one raises ValueError |
| RootWrappers.RootTrainWithoutProject | wrappers.py:54-82 | with the default project id None an accepted submission raises TypeError in `poll` |
| RootWrappers.RootTrainRejected | wrappers.py:76-80 | a rejected submission raises ValueError before any poll |
| RootWrappers.RootTrain | wrappers.py:54-91 | the stage as written ends as RootTrainSpec says |
| RootWrappers.FlattenAppend | wrappers.py:98 | flattening a concatenation concatenates the flattenings |
| RootWrappers.FlattenMembership | wrappers.py:98 | a job is in the flat list exactly when some task pushed it |
| RootWrappers.FlattenPosition | wrappers.py:98 | task order and list order are kept |
| RootWrappers.FlattenLength | wrappers.py:98 | the length is the sum of the task lists' lengths |
| RootWrappers.CollectTrainJobs | wrappers.py:95-98 | the collecting loop as written equals the flattening |
| RootWrappers.RootScorePlan | wrappers.py:146-156 | fails exactly without an `info` shard; otherwise shards [4:-1] of the train job and the train job |
| RootWrappers.RootPlans | wrappers.py:143-156 | one plan per selected info file, in order |
| RootWrappers.RootScoreAlgorithmOfTrainJob | wrappers.py:150-156 | for a model under a root train id whose directory segments and tier hold no `_`, the train job is that id and the `[4:-1]` slice as written gives back the image tag |
| RootWrappers.RootScoreSpec | wrappers.py:129-173 | a completed `score` hands on a well-formed job map (each job listed once, list and map agreeing) |
| RootWrappers.RootScoreChecksStates | wrappers.py:167-173 | once submitted and polled, `score` completes exactly when every job SUCCEEDED |
| RootWrappers.RootScoreDone | wrappers.py:143-173 | a completed `score` hands on exactly the accepted jobs with their train jobs |
| RootWrappers.RootScoreFirstModelReads | wrappers.py:150-151 | the first model's listing exception, or IndexError for an empty listing, is `score`'s exception |
| RootWrappers.RootScoreWithoutProject | wrappers.py:129-167 | with the default project id None, `score` raises TypeError once one model was submitted |
| RootWrappers.RootSubmitScores | wrappers.py:143-164 | the loop as written ends as the submissions function says |
| RootWrappers.RootScore | wrappers.py:129-173 | the stage ends as RootScoreSpec says |
| DevTrainJobs.Piece | gcpaiutils/train/trainjobs.py:53-58 | a string piece, or TypeError |
| DevTrainJobs.CommandSpec | gcpaiutils/train/trainjobs.py:50-59 | the command builds exactly when `region`, `modelDir`, `imageUri[0]` and `args[1]` are strings |
| DevTrainJobs.CommandImageIsFirstCharacter | gcpaiutils/train/trainjobs.py:55 | for a string URI the command carries only its first character |
| DevTrainJobs.NameAndCommandDisagreeOnModelDir | gcpaiutils/train/trainjobs.py:57-117 | a list `modelDir` breaks the command, a string one names the job after its first character |
| DevTrainJobs.SubmitSuccess | gcpaiutils/train/trainjobs.py:42-82 | only 'mlapi' reports; through gcloud `success` stays as it was |
| DevTrainJobs.TrainJobHandler.constructor | gcpaiutils/train/trainjobs.py:29-36 | no request and no verdict |
| DevTrainJobs.TrainJobHandler.CreateJobRequest | gcpaiutils/train/trainjobs.py:70-77 | ValueError for a missing spec; `success` reset; the credentials path read; the request built |
| DevTrainJobs.TrainJobHandler.ExeJobMlapi | gcpaiutils/train/trainjobs.py:62-68 | True on return, False on an HTTP error |
| DevTrainJobs.TrainJobHandler.ExeJobGcloud | gcpaiutils/train/trainjobs.py:50-60 | builds and runs the command; `success` is left alone |
| DevTrainJobs.TrainJobHandler.ExecuteJobRequest | gcpaiutils/train/trainjobs.py:42-48 | 'gcloud' ends as SubmitSpec says and appends the built command; 'mlapi' executes the last request (AttributeError without one) and runs nothing; otherwise NotImplementedError and no change |
| DevTrainJobs.TrainJobHandler.SubmitTrainJob | gcpaiutils/train/trainjobs.py:79-82 | ends as SubmitSpec says; 'mlapi' sets the request under `projects/<name>` exactly when a spec is given and the credentials are found, keeping it otherwise; only 'gcloud' appends a command, when one is built |
| DevTrainJobs.CreateSpecs | gcpaiutils/train/trainjobs.py:127-132 | the file is read only when no inputs are held; still none raises ValueError |
| DevTrainJobs.CreateSpecsKeepsInputs | gcpaiutils/train/trainjobs.py:128-131 | held inputs are kept; without a file a fresh handler raises ValueError |
| DevTrainJobs.JobSpecHandler.constructor | gcpaiutils/train/trainjobs.py:87-91 | no inputs and no specs |
| DevTrainJobs.JobSpecHandler.CreateJobSpecs | gcpaiutils/train/trainjobs.py:127-132 | ends as CreateSpecs says |

## Left out

- Google Cloud clients are oracles passed in, not modelled:
  - `discovery.build`, `request.execute`, `storage.Client`, blob listing and download. In the
    score stages each model's listing is a `Listing` parameter (blobs, none, or an exception),
    consulted between the deployment-key reads where the source lists;
  - loading the service-account file named by AI_PLATFORM_SA, with its fallback to
    GCP_AI_PLATFORM_SA, and `google.auth.default`. The selector lookup takes the load's
    exception as a parameter.
- The clock is a `Timestamp` parameter, and `sleep` does nothing. The random temp-directory ids of `make_temp_dir` are not modelled.
- Filesystem and shell work is not modelled, except that the command strings are built:
  - the directory juggling of `selection`, `selection_new` and `score`;
  - `os.system`, `check_call`, `subprocess.run`;
  - the `pred_dir` copies at the end of `score`.
- YAML and Jinja configuration loading (config/constants.py, `get_deployment_config`, `get_defaults`, `get_hyper`, module-level `open()`) is replaced by immutable maps. Defaults evaluated at import time, in the root constructors, are parameters instead.
- Airflow `xcom_pull`/`xcom_push` and logging are not modelled. Pulled values are parameters, and a pushed value is the stage's result. A pull returning None is not modelled.
- deploy.py, setup.py and the `Script_Test_*.py` scripts are not part of this model.
- `selector_class.select` is an external collaborator, so the selected info files are an input.
- Floats: `data_size` is a `real` compared only with the literal breakpoints, and floats never appear in spec values.
- `str()` of a list or dict is a fixed marker, not Python's repr. `lower()` covers ASCII letters only.
- Dict iteration order is kept only where the source depends on it: the job-state maps (`StateMap`). A spec dict is a `map`.
- The args list is a value inside the spec dict. Another name holding the same list would not see the rewrite.
- A mutable default argument (`inputs={}`) shared across calls is not modelled. Each handler is given its own dict.
- `poll` is bounded by the script of fetch results. A script that runs out ends the stage as `Unfinished` instead of polling forever.
- gcpaiutils/predict.py and gcpaiutils/preprocess.py are not part of this model. `score_new` and `data_evaluation` therefore take the submitted job ids and acceptance flags as inputs. The model checks only the status handling around them.
- The root wrappers.py imports `TrainJobSpecHandler`, which train.py does not define. It also calls `T.submit_job` on a train handler that only has `submit_train_job`. Its submissions are therefore oracle answers (job id and acceptance).
- `selection_new` is modelled only through the same flattening as `selection` (`RootWrappers.CollectTrainJobs`). Its downloads are I/O.
- The package `poll` reads `PROJECT_ID` for every request. The model assumes that read succeeds, because the stage handlers already required it.
- PkgWrappers.ScorePlan: the `score` and `score_new` stages (gcpaiutils/wrappers.py:212 and 409) hand the spec handler the corrected algorithm, shards `[4:]`, not the `[4:-1]` slice as written. The slice as written is modelled by `ScoreAlgorithmAsWritten` and its consequence is the finding below.
- PkgWrappers.ScoreSubmissions: the deployment keys that `score` reads are checked as present; their values (bucket names) are not followed into `modelFile`/`outputDir`.
- RootTrain.TrainJobHandler.constructor: `hypertune` is never set by any caller, so the tuning branch of the command (`hyper = self.hypertune`, a bool added to a string) only appears as the TypeError in TrainCommandSpec.

## Findings

| source | as written | input that shows it | evidently intended | confidence | as-written member | corrected member |
|---|---|---|---|---|---|---|
| gcpaiutils/wrappers.py:212 | the score stage recovers the algorithm with `split("_")[4:-1]` on the train directory `user_problem_version_stamp_algorithm`, which has no trailing scale-tier shard | algorithm `class_xgb` gives `class`; `aggregator` gives the empty string | every shard after the stamp, `[4:]`, which gives back the algorithm | not executed | PkgWrappers.ScoreAlgorithmAsWrittenDropsLastShard | PkgWrappers.ScoreAlgorithmRoundTrip |
