/**
 * train.py at the repository root. Its spec handler stores the algorithm's whole `ATOMS`
 * image list, fills the inputs (the model directory from the deployment's `modelDir`, the
 * hyper-parameters from the hyper-tune file when tuning), names the job after the train data,
 * the image tag and the tier, and appends the full id to `modelDir`. Its job handler appends
 * the model-dir and train-files pairs as nested lists for 'mlapi', and builds a shell command
 * whose user flags come from the even/odd positions of `args` for 'gcloud'.
 */
module RootTrain {
  import opened Results
  import opened PyStr
  import opened Values
  import opened Utils
  import opened JobNames
  import opened SpecDefaults
  import opened ArgTranslation
  import opened PkgHandler
  import RootHandler
  import RootPredict

  const GlobalArgs: seq<string> := ["scaleTier", "region", "modelDir"]
  const DefaultArgs: seq<string> := ["args", "trainFiles"]

  /** The fill loop's chain: `modelDir` from the deployment's own `modelDir`, a hyper-parameters branch. */
  const TrainLayers: Layers := Layers(GlobalArgs, DefaultArgs, false, true, false)

  /** `spec_full_args`: the globals, the defaults, then `hyperparameters` when tuning. */
  function SpecItems(hypertune: bool): seq<string>
  {
    GlobalArgs + DefaultArgs + (if hypertune then ["hyperparameters"] else [])
  }

  // ---------------------------------------------------------------- JobSpecHandler

  /** `create_job_specs`: fill, name the job, then append the whole id and a `/` to `modelDir`. */
  function TrainSpecs(entries: map<string, Value>, cfg: Config, algorithm: string, hypertune: bool, t: Timestamp)
    : (r: SpecsOutcome)
    ensures forall k :: k in entries ==> k in r.entries
    ensures forall k :: k in entries && k != "modelDir" ==> r.entries[k] == entries[k]
    ensures r.entries.Keys <= entries.Keys + ItemSet(SpecItems(hypertune))
    ensures r.jobId.Ok? ==> forall ch :: ch in r.jobId.value ==> !('A' <= ch <= 'Z')
  {
    var filled := Fill(SpecItems(hypertune), TrainLayers, entries, cfg, algorithm);
    var id := RootTrainJobName(filled.entries, t);
    NamedSpecs(filled, id, if id.Ok? then Some(id.value + "/") else None)
  }

  /** The train plan, position by position. */
  lemma SpecItemsLayout(hypertune: bool)
    ensures var items := SpecItems(hypertune);
            && |items| == (if hypertune then 6 else 5)
            && items[0] == "scaleTier" && items[1] == "region" && items[2] == "modelDir"
            && items[3] == "args" && items[4] == "trainFiles"
            && (hypertune ==> items[5] == "hyperparameters")
            && Distinct(items)
  {
  }

  /** How the train chain classifies each key of its plan. */
  lemma TrainOrigins()
    ensures OriginOf("scaleTier", TrainLayers) == Ok(Global("scaleTier"))
    ensures OriginOf("region", TrainLayers) == Ok(Global("region"))
    ensures OriginOf("modelDir", TrainLayers) == Ok(Global("modelDir"))
    ensures OriginOf("args", TrainLayers) == Ok(Default) && OriginOf("trainFiles", TrainLayers) == Ok(Default)
    ensures OriginOf("hyperparameters", TrainLayers) == Ok(Hyper)
  {
    assert "scaleTier" in GlobalArgs && "region" in GlobalArgs && "modelDir" in GlobalArgs;
    assert "args" !in GlobalArgs && "trainFiles" !in GlobalArgs;
    assert "hyperparameters" !in GlobalArgs && "hyperparameters" !in DefaultArgs;
  }

  /** A named train job's `modelDir` is the filled directory followed by the whole id and a `/`. */
  lemma TrainSpecsModelDir(entries: map<string, Value>, cfg: Config, algorithm: string, hypertune: bool, t: Timestamp)
    requires TrainSpecs(entries, cfg, algorithm, hypertune, t).jobId.Ok?
    ensures var filled := Fill(SpecItems(hypertune), TrainLayers, entries, cfg, algorithm).entries;
            var r := TrainSpecs(entries, cfg, algorithm, hypertune, t);
            && "modelDir" in filled && filled["modelDir"].Str?
            && r.jobId == RootTrainJobName(filled, t)
            && r.entries["modelDir"] == Str(filled["modelDir"].s + (r.jobId.value + "/"))
  {
  }

  /**
   * Where a successful fill's missing general keys come from: the globals under their own
   * names, `modelDir` included.
   */
  lemma TrainSpecsGlobals(entries: map<string, Value>, cfg: Config, algorithm: string, hypertune: bool)
    requires Fill(SpecItems(hypertune), TrainLayers, entries, cfg, algorithm).error.None?
    ensures var e := Fill(SpecItems(hypertune), TrainLayers, entries, cfg, algorithm).entries;
            && "scaleTier" in e && "region" in e && "modelDir" in e
            && ("scaleTier" !in entries ==> "scaleTier" in cfg.globals && e["scaleTier"] == cfg.globals["scaleTier"])
            && ("region" !in entries ==> "region" in cfg.globals && e["region"] == cfg.globals["region"])
            && ("modelDir" !in entries ==> "modelDir" in cfg.globals && e["modelDir"] == cfg.globals["modelDir"])
  {
    var items := SpecItems(hypertune);
    SpecItemsLayout(hypertune);
    TrainOrigins();
    if "scaleTier" !in entries { FillFromGlobal(items, TrainLayers, entries, cfg, algorithm, 0, "scaleTier"); }
    if "region" !in entries { FillFromGlobal(items, TrainLayers, entries, cfg, algorithm, 1, "region"); }
    if "modelDir" !in entries { FillFromGlobal(items, TrainLayers, entries, cfg, algorithm, 2, "modelDir"); }
  }

  /** A successful fill's missing `args` and `trainFiles` come from the algorithm's defaults. */
  lemma TrainSpecsAlgorithmDefaults(entries: map<string, Value>, cfg: Config, algorithm: string, hypertune: bool)
    requires Fill(SpecItems(hypertune), TrainLayers, entries, cfg, algorithm).error.None?
    ensures var e := Fill(SpecItems(hypertune), TrainLayers, entries, cfg, algorithm).entries;
            && "args" in e && "trainFiles" in e
            && ("args" !in entries ==> algorithm in cfg.defaults && Get(cfg.defaults[algorithm], "args") == Ok(e["args"]))
            && ("trainFiles" !in entries ==> algorithm in cfg.defaults
                                             && Get(cfg.defaults[algorithm], "trainFiles") == Ok(e["trainFiles"]))
  {
    var items := SpecItems(hypertune);
    SpecItemsLayout(hypertune);
    TrainOrigins();
    if "args" !in entries { FillFromDefault(items, TrainLayers, entries, cfg, algorithm, 3); }
    if "trainFiles" !in entries { FillFromDefault(items, TrainLayers, entries, cfg, algorithm, 4); }
  }

  /** When tuning, a successful fill's missing `hyperparameters` is the algorithm's entry of the hyper-tune file. */
  lemma TrainSpecsHyper(entries: map<string, Value>, cfg: Config, algorithm: string)
    requires Fill(SpecItems(true), TrainLayers, entries, cfg, algorithm).error.None?
    ensures var e := Fill(SpecItems(true), TrainLayers, entries, cfg, algorithm).entries;
            && "hyperparameters" in e
            && ("hyperparameters" !in entries ==> algorithm in cfg.hyper && e["hyperparameters"] == cfg.hyper[algorithm])
  {
    var items := SpecItems(true);
    SpecItemsLayout(true);
    TrainOrigins();
    if "hyperparameters" !in entries {
      FillFromHyper(items, TrainLayers, entries, cfg, algorithm, 5);
    }
  }

  /** `JobSpecHandler`: the configuration, the algorithm, the caller's inputs dict, the tuning flag and the specs built. */
  class JobSpecHandler {
    const cfg: Config
    const algorithm: string
    const inputs: PyDict
    const projectName: Value
    const hypertune: bool
    var jobSpecs: Option<JobSpec>

    constructor (cfg: Config, algorithm: string, inputs: PyDict, projectName: Value, hypertune: bool)
      ensures this.cfg == cfg && this.algorithm == algorithm && this.inputs == inputs
      ensures this.projectName == projectName && this.hypertune == hypertune && jobSpecs.None?
    {
      this.cfg := cfg;
      this.algorithm := algorithm;
      this.inputs := inputs;
      this.projectName := projectName;
      this.hypertune := hypertune;
      jobSpecs := None;
    }

    /** `create_job_specs()`: fills the shared inputs, suffixes `modelDir` and sets `job_specs`, or raises. */
    method CreateJobSpecs(t: Timestamp) returns (err: Option<Error>)
      modifies this, inputs
      ensures var r := TrainSpecs(old(inputs.entries), cfg, algorithm, hypertune, t);
              && inputs.entries == r.entries
              && (r.jobId.Ok? ==> err.None? && jobSpecs == Some(JobSpec(r.jobId.value, inputs)))
              && (r.jobId.Err? ==> err == Some(r.jobId.error) && jobSpecs == old(jobSpecs))
    {
      err := FillInputs(inputs, SpecItems(hypertune), TrainLayers, cfg, algorithm);
      if err.Some? {
        return;
      }
      var id := RootTrainJobName(inputs.entries, t);
      if id.Err? {
        return Some(id.error);
      }
      var suffixed := AppendToModelDir(inputs.entries, id.value + "/");
      if suffixed.Err? {
        return Some(suffixed.error);
      }
      inputs.entries := suffixed.value;
      jobSpecs := Some(JobSpec(id.value, inputs));
    }
  }

  /**
   * `JobSpecHandler(...)`: stores the algorithm's whole `ATOMS` entry (a list of images) in
   * the caller's inputs, or raises ValueError for an algorithm the deployment does not list.
   */
  method NewJobSpecHandler(cfg: Config, algorithm: string, inputs: PyDict, projectName: Value, hypertune: bool)
    returns (r: Result<JobSpecHandler>)
    modifies inputs
    ensures var image := RegistryImage(cfg.globals, "ATOMS", algorithm, None);
            && (image.Err? ==> r == Err(image.error) && inputs.entries == old(inputs.entries))
            && (image.Ok? ==> r.Ok? && fresh(r.value) && inputs.entries == old(inputs.entries)["imageUri" := image.value]
                              && r.value.inputs == inputs && r.value.algorithm == algorithm && r.value.cfg == cfg
                              && r.value.hypertune == hypertune && r.value.jobSpecs.None?)
  {
    var image := RegistryImage(cfg.globals, "ATOMS", algorithm, None);
    if image.Err? {
      return Err(image.error);
    }
    inputs.entries := inputs.entries["imageUri" := image.value];
    var handler := new JobSpecHandler(cfg, algorithm, inputs, projectName, hypertune);
    return Ok(handler);
  }

  // ---------------------------------------------------------------- create_job_request

  /**
   * `ti['args'].append([flag, ti.pop(key)])`: KeyError without args, AttributeError when the
   * args are not a list, KeyError (args untouched) without the key; otherwise the pair is
   * appended as one nested list.
   */
  function AppendPair(ti: map<string, Value>, flag: string, key: string): (r: Outcome)
    requires key != "args"
    ensures r.error.None? <==> "args" in ti && ti["args"].List? && key in ti
    ensures r.error.Some? ==> r.entries == ti
    ensures r.error.None? ==> r.entries == (ti - {key})["args" := List(ti["args"].items + [List([Str(flag), ti[key]])])]
  {
    if "args" !in ti then Outcome(ti, Some(KeyError))
    else if !ti["args"].List? then Outcome(ti, Some(AttributeError))
    else if key !in ti then Outcome(ti, Some(KeyError))
    else Outcome((ti - {key})["args" := List(ti["args"].items + [List([Str(flag), ti[key]])])], None)
  }

  /**
   * The rewrite `create_job_request` performs on `trainingInput`: pop the image list and put
   * its first image under `masterConfig` (the pop happens even when the list is empty), then
   * append the model-dir and train-files pairs.
   */
  function TrainRequest(ti: map<string, Value>): (r: Outcome)
  {
    if "imageUri" !in ti then Outcome(ti, Some(KeyError))
    else
      var popped := ti - {"imageUri"};
      match Index(ti["imageUri"], 0)
      case Err(e) => Outcome(popped, Some(e))
      case Ok(first) =>
        var moved := popped["masterConfig" := Dict(map["imageUri" := first])];
        var withDir := AppendPair(moved, "model-dir", "modelDir");
        if withDir.error.Some? then withDir
        else AppendPair(withDir.entries, "train-files", "trainFiles")
  }

  /**
   * The rewrite succeeds exactly when the image list has a first image and the spec carries
   * a list of args, `modelDir` and `trainFiles`; the args then end with the two nested pairs
   * (two items, not four: the pairs are not flattened and carry no `--`), the image list,
   * `modelDir` and `trainFiles` are gone, and every other key but `masterConfig` is kept.
   */
  lemma TrainRequestSpec(ti: map<string, Value>)
    ensures var r := TrainRequest(ti);
            r.error.None? <==> && "imageUri" in ti && Index(ti["imageUri"], 0).Ok?
                               && "args" in ti && ti["args"].List? && "modelDir" in ti && "trainFiles" in ti
    ensures var r := TrainRequest(ti);
            r.error.None? ==>
              && "imageUri" !in r.entries && "modelDir" !in r.entries && "trainFiles" !in r.entries
              && "masterConfig" in r.entries && r.entries["masterConfig"] == Dict(map["imageUri" := Index(ti["imageUri"], 0).value])
              && "args" in r.entries
              && r.entries["args"] == List(ti["args"].items + [List([Str("model-dir"), ti["modelDir"]]),
                                                               List([Str("train-files"), ti["trainFiles"]])])
              && (forall k :: k in ti && k !in {"imageUri", "masterConfig", "args", "modelDir", "trainFiles"} ==>
                                k in r.entries && r.entries[k] == ti[k])
  {
  }

  /** The same rewrite on the shared dict, step by step. */
  method TrainRequestInPlace(ti: PyDict) returns (err: Option<Error>)
    modifies ti
    ensures Outcome(ti.entries, err) == TrainRequest(old(ti.entries))
  {
    if "imageUri" !in ti.entries {
      return Some(KeyError);
    }
    var images := ti.entries["imageUri"];
    ti.entries := ti.entries - {"imageUri"};
    var first := Index(images, 0);
    if first.Err? {
      return Some(first.error);
    }
    ti.entries := ti.entries["masterConfig" := Dict(map["imageUri" := first.value])];
    var pairs := [("model-dir", "modelDir"), ("train-files", "trainFiles")];
    var i := 0;
    while i < 2
      invariant 0 <= i <= 2
      invariant i == 0 ==> TrainRequest(old(ti.entries)) == (var w := AppendPair(ti.entries, "model-dir", "modelDir");
                                                             if w.error.Some? then w else AppendPair(w.entries, "train-files", "trainFiles"))
      invariant i == 1 ==> TrainRequest(old(ti.entries)) == AppendPair(ti.entries, "train-files", "trainFiles")
      invariant i == 2 ==> TrainRequest(old(ti.entries)) == Outcome(ti.entries, None)
    {
      var (flag, key) := pairs[i];
      if "args" !in ti.entries {
        return Some(KeyError);
      }
      if !ti.entries["args"].List? {
        return Some(AttributeError);
      }
      if key !in ti.entries {
        return Some(KeyError);
      }
      var value := ti.entries[key];
      var args := ti.entries["args"].items;
      ti.entries := (ti.entries - {key})["args" := List(args + [List([Str(flag), value])])];
      i := i + 1;
    }
    err := None;
  }

  // ---------------------------------------------------------------- the gcloud command

  /**
   * What `for i, element in enumerate(args)` walks: a list's items, a string's characters;
   * an empty dict gives nothing and a non-empty one raises KeyError when `args[1]` is read;
   * None, a bool or an int is not iterable.
   */
  function ArgsElements(v: Value): (r: Result<seq<Value>>)
    ensures v.List? ==> r == Ok(v.items)
    ensures v.Str? ==> r.Ok? && |r.value| == |v.s|
    ensures (v.Null? || v.Bool? || v.Int?) ==> r == Err(TypeError)
  {
    match v
    case List(xs) => Ok(xs)
    case Str(s) => Ok(seq(|s|, i requires 0 <= i < |s| => Str([s[i]])))
    case Dict(m) => if m == map[] then Ok([]) else Err(KeyError)
    case _ => Err(TypeError)
  }

  /**
   * The user flags: one `--name=value` per pair, the name at an even position and the value
   * (as `str`) right after it. TypeError for a name that is not a string, IndexError for a
   * name with no value after it, whichever comes first.
   */
  function UserArgs(args: seq<Value>): (r: Result<seq<string>>)
    decreases |args|
  {
    if |args| == 0 then Ok([])
    else if !args[0].Str? then Err(TypeError)
    else if |args| < 2 then Err(IndexError)
    else
      var rest := UserArgs(args[2..]);
      if rest.Err? then rest
      else Ok([Flag(args[0].s, args[1])] + rest.value)
  }

  /** `'--' + name + '=' + str(value)` */
  function Flag(name: string, value: Value): string
  {
    "--" + name + "=" + ToStr(value)
  }

  /** The names sit at the even positions. */
  predicate NamesAreStrings(args: seq<Value>)
  {
    forall i :: 0 <= i < |args| && i % 2 == 0 ==> args[i].Str?
  }

  /**
   * The walk succeeds exactly for an even number of args whose names are all strings, and
   * then yields one flag per pair, in order; a walk that fails raises TypeError or
   * IndexError, and IndexError exactly for well-named args of odd length.
   */
  lemma {:induction false} UserArgsSpec(args: seq<Value>)
    ensures var r := UserArgs(args);
            && (r.Ok? <==> |args| % 2 == 0 && NamesAreStrings(args))
            && (r.Ok? ==> |r.value| == |args| / 2
                          && forall j :: 0 <= j < |args| / 2 ==> r.value[j] == Flag(args[2 * j].s, args[2 * j + 1]))
            && (r.Err? ==> r.error == TypeError || r.error == IndexError)
            && (NamesAreStrings(args) && |args| % 2 == 1 ==> r == Err(IndexError))
    decreases |args|
  {
    if |args| >= 2 && args[0].Str? {
      var tail := args[2..];
      UserArgsSpec(tail);
      DropPairParity(|args|);
      assert forall i :: 0 <= i < |tail| ==> tail[i] == args[i + 2];
      assert NamesAreStrings(args) <==> NamesAreStrings(tail) by {
        if NamesAreStrings(tail) {
          forall i | 0 <= i < |args| && i % 2 == 0 ensures args[i].Str? {
            if i >= 2 { assert tail[i - 2] == args[i]; }
          }
        }
      }
      var r := UserArgs(args);
      if r.Ok? {
        forall j | 0 <= j < |args| / 2
          ensures r.value[j] == Flag(args[2 * j].s, args[2 * j + 1])
        {
          if j > 0 {
            assert r.value[j] == UserArgs(tail).value[j - 1];
            assert tail[2 * (j - 1)] == args[2 * j] && tail[2 * (j - 1) + 1] == args[2 * j + 1];
          }
        }
      }
    } else if |args| == 1 && args[0].Str? {
      assert NamesAreStrings(args);
    }
  }

  /** Dropping a pair keeps the parity and takes one off the number of pairs. Proof aid. */
  lemma DropPairParity(n: nat)
    requires n >= 2
    ensures n % 2 == (n - 2) % 2 && n / 2 == (n - 2) / 2 + 1
  {
  }

  /** `a` prepended to a successful result; an error passes through. */
  function Prepend(a: seq<string>, r: Result<seq<string>>): Result<seq<string>>
  {
    if r.Ok? then Ok(a + r.value) else r
  }

  /** One step of the walk: the pair at an even position `i`, then the rest. */
  lemma UserArgsStep(args: seq<Value>, i: nat)
    requires i < |args|
    ensures UserArgs(args[i..]) == if !args[i].Str? then Err(TypeError)
                                   else if i + 1 >= |args| then Err(IndexError)
                                   else Prepend([Flag(args[i].s, args[i + 1])], UserArgs(args[i + 2..]))
  {
    assert args[i..][0] == args[i];
    if args[i].Str? && i + 1 < |args| {
      assert args[i..][2..] == args[i + 2..] && args[i..][1] == args[i + 1];
    }
  }

  /** Prepending a concatenation is prepending its two parts in turn. Proof aid. */
  lemma PrependTwice(a: seq<string>, b: seq<string>, r: Result<seq<string>>)
    ensures Prepend(a + b, r) == Prepend(a, Prepend(b, r))
  {
    if r.Ok? {
      assert (a + b) + r.value == a + (b + r.value);
    }
  }

  /** Taking the pair at an even position `i` into the accumulated flags. */
  lemma UserArgsAdvance(args: seq<Value>, i: nat, acc: seq<string>)
    requires i + 1 < |args| && args[i].Str?
    ensures Prepend(acc, UserArgs(args[i..])) == Prepend(acc + [Flag(args[i].s, args[i + 1])], UserArgs(args[i + 2..]))
  {
    UserArgsStep(args, i);
    PrependTwice(acc, [Flag(args[i].s, args[i + 1])], UserArgs(args[i + 2..]));
  }

  /** Kept apart from the loop below, where reasoning about `%` in place is costly. Proof aid. */
  lemma NextParity(i: nat)
    ensures (i + 1) % 2 == 0 <==> i % 2 != 0
  {
  }

  /** The user-args loop itself, over every position as `enumerate` walks it. */
  method UserArgsLoop(args: seq<Value>) returns (r: Result<seq<string>>)
    ensures r == UserArgs(args)
  {
    ghost var goal := UserArgs(args);
    var acc: seq<string> := [];
    var i := 0;
    ghost var next := 0;
    assert args[i..] == args;
    assert goal.Ok? ==> acc + goal.value == goal.value;
    while i < |args|
      invariant 0 <= i <= |args|
      invariant next <= |args| && (next == i || next == i + 1)
      invariant next == i <==> i % 2 == 0
      invariant goal == Prepend(acc, UserArgs(args[next..]))
    {
      if i % 2 == 0 {
        if !args[i].Str? {
          UserArgsStep(args, i);
          return Err(TypeError);
        }
        if i + 1 >= |args| {
          UserArgsStep(args, i);
          return Err(IndexError);
        }
        UserArgsAdvance(args, i, acc);
        acc := acc + [Flag(args[i].s, args[i + 1])];
        next := i + 2;
      }
      NextParity(i);
      i := i + 1;
    }
    assert args[next..] == [] && acc + [] == acc;
    r := Ok(acc);
  }

  /**
   * The fields the head of a train command reads, in order: region, the first image (a
   * string), scale tier (a string, to be lowercased) and, for the custom tier, the master
   * type; then the model directory and the train files.
   */
  predicate TrainHeadFields(ti: map<string, Value>)
  {
    && StrEntry(ti, "region").Ok? && "imageUri" in ti && Index(ti["imageUri"], 0).Ok?
    && Index(ti["imageUri"], 0).value.Str? && "scaleTier" in ti && ti["scaleTier"].Str?
    && (Lower(ti["scaleTier"].s) == "custom" ==> StrEntry(ti, "masterType").Ok?)
  }

  /**
   * The pieces of the command up to and including the train-files flag, in order. The first
   * field that fails decides the error: KeyError for a missing key, TypeError for a value that
   * is not a string, AttributeError when the scale tier cannot be lowercased, and the error of
   * indexing the image list when it has no first image.
   */
  function TrainCommandHead(jobId: string, ti: map<string, Value>): (r: Result<seq<string>>)
    ensures r.Ok? <==> TrainHeadFields(ti) && StrEntry(ti, "modelDir").Ok? && StrEntry(ti, "trainFiles").Ok?
    ensures r.Ok? ==>
              var tier := Lower(ti["scaleTier"].s);
              r.value == [RootPredict.ShellPrefix, RootPredict.SubmitTraining, jobId + " ",
                          "--region " + ti["region"].s + " ",
                          "--master-image-uri " + Index(ti["imageUri"], 0).value.s + " ",
                          "--scale-tier " + tier + " "]
                         + (if tier == "custom" then ["--master-machine-type " + ti["masterType"].s + " "] else [])
                         + ["-- ", "--model-dir=" + ti["modelDir"].s + " ", "--train-files=" + ti["trainFiles"].s + " "]
    ensures StrEntry(ti, "region").Err? ==> r == Err(StrEntry(ti, "region").error)
    ensures StrEntry(ti, "region").Ok? && "imageUri" !in ti ==> r == Err(KeyError)
    ensures (&& StrEntry(ti, "region").Ok? && "imageUri" in ti && Index(ti["imageUri"], 0).Err?)
            ==> r == Err(Index(ti["imageUri"], 0).error)
    ensures (&& StrEntry(ti, "region").Ok? && "imageUri" in ti && Index(ti["imageUri"], 0).Ok?
             && !Index(ti["imageUri"], 0).value.Str?) ==> r == Err(TypeError)
    ensures (&& StrEntry(ti, "region").Ok? && "imageUri" in ti && Index(ti["imageUri"], 0).Ok?
             && Index(ti["imageUri"], 0).value.Str? && "scaleTier" !in ti) ==> r == Err(KeyError)
    ensures (&& StrEntry(ti, "region").Ok? && "imageUri" in ti && Index(ti["imageUri"], 0).Ok?
             && Index(ti["imageUri"], 0).value.Str? && "scaleTier" in ti && !ti["scaleTier"].Str?)
            ==> r == Err(AttributeError)
    ensures (&& StrEntry(ti, "region").Ok? && "imageUri" in ti && Index(ti["imageUri"], 0).Ok?
             && Index(ti["imageUri"], 0).value.Str? && "scaleTier" in ti && ti["scaleTier"].Str?
             && Lower(ti["scaleTier"].s) == "custom" && StrEntry(ti, "masterType").Err?)
            ==> r == Err(StrEntry(ti, "masterType").error)
    ensures TrainHeadFields(ti) && StrEntry(ti, "modelDir").Err? ==> r == Err(StrEntry(ti, "modelDir").error)
    ensures (&& TrainHeadFields(ti) && StrEntry(ti, "modelDir").Ok? && StrEntry(ti, "trainFiles").Err?)
            ==> r == Err(StrEntry(ti, "trainFiles").error)
  {
    var region :- StrEntry(ti, "region");
    var images :- Lookup(ti, "imageUri");
    var firstImage :- Index(images, 0);
    var image :- StrOperand(firstImage);
    var tierValue :- Lookup(ti, "scaleTier");
    var tier :- StrReceiver(tierValue);
    var machine :- RootPredict.MachineType(ti, tier);
    var modelDir :- StrEntry(ti, "modelDir");
    var trainFiles :- StrEntry(ti, "trainFiles");
    var head := [RootPredict.ShellPrefix, RootPredict.SubmitTraining, jobId + " ", "--region " + region + " ",
                 "--master-image-uri " + image + " ", "--scale-tier " + Lower(tier) + " "];
    Ok(head + machine + ["-- ", "--model-dir=" + modelDir + " ", "--train-files=" + trainFiles + " "])
  }

  /**
   * The command `_exe_job_gcloud` hands to the shell: the head, then the user flags joined by
   * spaces. While tuning, adding the boolean flag to the string raises TypeError once
   * everything else has been read.
   */
  function TrainCommand(jobId: string, ti: map<string, Value>, hypertune: bool): (r: Result<string>)
  {
    var head :- TrainCommandHead(jobId, ti);
    var argsValue :- Lookup(ti, "args");
    var elements :- ArgsElements(argsValue);
    var user :- UserArgs(elements);
    if hypertune then Err(TypeError) else Ok(Join(head, "") + Join(user, " "))
  }

  /**
   * The command builds exactly when the head builds, the args are a walkable sequence of
   * name/value pairs and the handler is not tuning; it is then the head followed by one
   * `--name=value` per pair, space-separated.
   */
  lemma TrainCommandSpec(jobId: string, ti: map<string, Value>, hypertune: bool)
    ensures var r := TrainCommand(jobId, ti, hypertune);
            r.Ok? <==> && TrainCommandHead(jobId, ti).Ok? && "args" in ti && ArgsElements(ti["args"]).Ok?
                       && |ArgsElements(ti["args"]).value| % 2 == 0 && NamesAreStrings(ArgsElements(ti["args"]).value)
                       && !hypertune
    ensures var r := TrainCommand(jobId, ti, hypertune);
            r.Ok? ==> && UserArgs(ArgsElements(ti["args"]).value).Ok?
                      && r.value == Join(TrainCommandHead(jobId, ti).value, "") + Join(UserArgs(ArgsElements(ti["args"]).value).value, " ")
    ensures (&& hypertune && TrainCommandHead(jobId, ti).Ok? && "args" in ti && ti["args"].List?
             && |ti["args"].items| % 2 == 0 && NamesAreStrings(ti["args"].items)) ==> TrainCommand(jobId, ti, hypertune) == Err(TypeError)
  {
    if "args" in ti && ArgsElements(ti["args"]).Ok? {
      UserArgsSpec(ArgsElements(ti["args"]).value);
    }
  }

  /** The command as `_exe_job_gcloud` builds it, with the user-args loop run as written. */
  method BuildTrainCommand(jobId: string, ti: map<string, Value>, hypertune: bool) returns (r: Result<string>)
    ensures r == TrainCommand(jobId, ti, hypertune)
  {
    var head := TrainCommandHead(jobId, ti);
    if head.Err? {
      return Err(head.error);
    }
    if "args" !in ti {
      return Err(KeyError);
    }
    var elements := ArgsElements(ti["args"]);
    if elements.Err? {
      return Err(elements.error);
    }
    var user := UserArgsLoop(elements.value);
    if user.Err? {
      return Err(user.error);
    }
    if hypertune {
      return Err(TypeError);
    }
    r := Ok(Join(head.value, "") + Join(user.value, " "));
  }

  // ---------------------------------------------------------------- TrainJobHandler

  /** The deployment key `_auth_setup` exports as the credentials path; it must hold a string. */
  function Credentials(globals: map<string, Value>): (r: Result<string>)
    ensures r.Ok? <==> "GOOGLE_APPLICATION_CREDENTIALS_JSON" in globals && globals["GOOGLE_APPLICATION_CREDENTIALS_JSON"].Str?
  {
    StrEntry(globals, "GOOGLE_APPLICATION_CREDENTIALS_JSON")
  }

  /**
   * `submit_train_job(job_spec)` as a function of the executor, the deployment, the spec (its
   * id and `trainingInput`), the tuning flag, the remote outcome, whether the shell command
   * exits with status 0 and the `success` flag before.
   */
  function TrainSubmitSpec(executor: Executor, globals: map<string, Value>, spec: Option<(string, map<string, Value>)>,
                           hypertune: bool, outcome: ExecOutcome, shellOk: bool, before: Option<bool>): Submission
  {
    match executor
    case Unsupported => Submission(before, Some(NotImplementedError))
    case Gcloud =>
      if spec.None? then Submission(before, Some(TypeError))
      else if TrainCommand(spec.value.0, spec.value.1, hypertune).Err? then
        Submission(before, Some(TrainCommand(spec.value.0, spec.value.1, hypertune).error))
      else if shellOk then Submission(Some(true), None)
      else Submission(before, Some(CalledProcessError))
    case Mlapi =>
      if spec.None? then Submission(before, Some(ValueError))
      else if TrainRequest(spec.value.1).error.Some? then Submission(before, TrainRequest(spec.value.1).error)
      else if Credentials(globals).Err? then Submission(None, Some(Credentials(globals).error))
      else RootHandler.Execution(outcome, None)
  }

  /**
   * A submission from a fresh handler reports success exactly when the spec was rewritten,
   * the credentials were found and the request returned ('mlapi'), or when the command was
   * built and the shell succeeded ('gcloud'); a tuning handler never succeeds through gcloud.
   */
  lemma TrainSubmitSuccess(executor: Executor, globals: map<string, Value>, spec: Option<(string, map<string, Value>)>,
                           hypertune: bool, outcome: ExecOutcome, shellOk: bool)
    ensures var r := TrainSubmitSpec(executor, globals, spec, hypertune, outcome, shellOk, None);
            r.success == Some(true) <==>
              && spec.Some?
              && (|| (executor.Mlapi? && TrainRequest(spec.value.1).error.None? && Credentials(globals).Ok?
                      && outcome.Returned?)
                  || (executor.Gcloud? && TrainCommand(spec.value.0, spec.value.1, hypertune).Ok? && shellOk))
    ensures hypertune && executor.Gcloud? ==> TrainSubmitSpec(executor, globals, spec, hypertune, outcome, shellOk, None).success.None?
  {
    if hypertune && executor.Gcloud? && spec.Some? {
      TrainCommandSpec(spec.value.0, spec.value.1, hypertune);
    }
  }

  /** `TrainJobHandler`: the project, the executor, the deployment it reads, and what it built and ran. */
  class TrainJobHandler {
    const projectName: Value
    const executor: Executor
    const globals: map<string, Value>
    var hypertune: bool
    var jobRequest: Option<JobRequest>
    var success: Option<bool>
    /** The shell commands run so far, in order. */
    var commands: seq<string>

    constructor (projectName: Value, executor: Executor, globals: map<string, Value>)
      ensures this.projectName == projectName && this.executor == executor && this.globals == globals
      ensures !hypertune && jobRequest.None? && success.None? && commands == []
    {
      this.projectName := projectName;
      this.executor := executor;
      this.globals := globals;
      hypertune := false;
      jobRequest := None;
      success := None;
      commands := [];
    }

    /**
     * `create_job_request(job_spec)`: ValueError for a missing spec; rewrites the spec in
     * place, resets `success`, reads the credentials path (KeyError or TypeError), then builds
     * the create request under the project name.
     */
    method CreateJobRequest(spec: Option<JobSpec>) returns (err: Option<Error>)
      modifies this`jobRequest, this`success, if spec.Some? then {spec.value.trainingInput} else {}
      ensures spec.None? ==> err == Some(ValueError) && success == old(success) && jobRequest == old(jobRequest)
      ensures spec.Some? ==>
                var out := TrainRequest(old(spec.value.trainingInput.entries));
                && spec.value.trainingInput.entries == out.entries
                && (out.error.Some? ==> err == out.error && success == old(success) && jobRequest == old(jobRequest))
                && (out.error.None? ==> success.None?)
                && (out.error.None? && Credentials(globals).Err? ==> err == Some(Credentials(globals).error)
                                                                     && jobRequest == old(jobRequest))
                && (out.error.None? && Credentials(globals).Ok? ==>
                      err.None? && jobRequest == Some(JobRequest("projects/" + ToStr(projectName), spec.value)))
    {
      if spec.None? {
        return Some(ValueError);
      }
      err := TrainRequestInPlace(spec.value.trainingInput);
      if err.Some? {
        return;
      }
      success := None;
      var credentials := Credentials(globals);
      if credentials.Err? {
        return Some(credentials.error);
      }
      jobRequest := Some(JobRequest("projects/" + ToStr(projectName), spec.value));
    }

    /** `_exe_job_mlapi()`: executes the request built last; there is none before the first. */
    method ExeJobMlapi(outcome: ExecOutcome) returns (err: Option<Error>)
      modifies this`success
      ensures jobRequest.None? ==> err == Some(AttributeError) && success == old(success)
      ensures jobRequest.Some? ==> Submission(success, err) == RootHandler.Execution(outcome, old(success))
    {
      if jobRequest.None? {
        return Some(AttributeError);
      }
      match outcome
      case Returned =>
        success := Some(true);
        err := None;
      case HttpFailure =>
        success := Some(false);
        err := None;
      case OtherFailure =>
        err := Some(RemoteError);
    }

    /**
     * `_exe_job_gcloud(job_spec)`: builds the command (TypeError for a missing spec), runs it,
     * and sets `success` once the shell exits with status 0 (CalledProcessError otherwise).
     */
    method ExeJobGcloud(spec: Option<(string, map<string, Value>)>, shellOk: bool) returns (err: Option<Error>)
      modifies this`success, this`commands
      ensures Submission(success, err) == TrainSubmitSpec(Gcloud, globals, spec, hypertune, Returned, shellOk, old(success))
      ensures if spec.Some? && TrainCommand(spec.value.0, spec.value.1, hypertune).Ok?
              then commands == old(commands) + [TrainCommand(spec.value.0, spec.value.1, hypertune).value]
              else commands == old(commands)
    {
      if spec.None? {
        return Some(TypeError);
      }
      var command := BuildTrainCommand(spec.value.0, spec.value.1, hypertune);
      if command.Err? {
        return Some(command.error);
      }
      commands := commands + [command.value];
      if !shellOk {
        return Some(CalledProcessError);
      }
      success := Some(true);
      err := None;
    }

    /** `_execute_job_request(job_spec)`: dispatches on the executor. */
    method ExecuteJobRequest(spec: Option<(string, map<string, Value>)>, outcome: ExecOutcome, shellOk: bool)
      returns (err: Option<Error>)
      modifies this`success, this`commands
      ensures executor.Unsupported? ==> err == Some(NotImplementedError) && success == old(success)
                                        && commands == old(commands)
      ensures executor.Gcloud? ==>
                Submission(success, err) == TrainSubmitSpec(Gcloud, globals, spec, hypertune, outcome, shellOk, old(success))
      ensures executor.Gcloud? ==>
                if spec.Some? && TrainCommand(spec.value.0, spec.value.1, hypertune).Ok?
                then commands == old(commands) + [TrainCommand(spec.value.0, spec.value.1, hypertune).value]
                else commands == old(commands)
      ensures executor.Mlapi? ==> commands == old(commands)
                                  && (jobRequest.None? ==> err == Some(AttributeError) && success == old(success))
                                  && (jobRequest.Some? ==> Submission(success, err) == RootHandler.Execution(outcome, old(success)))
    {
      match executor
      case Gcloud => err := ExeJobGcloud(spec, shellOk);
      case Mlapi => err := ExeJobMlapi(outcome);
      case Unsupported => err := Some(NotImplementedError);
    }

    /**
     * `submit_train_job(job_spec)`: with 'mlapi' builds the request then executes it;
     * otherwise goes straight to the executor. It ends as TrainSubmitSpec says.
     */
    method SubmitTrainJob(spec: Option<JobSpec>, outcome: ExecOutcome, shellOk: bool) returns (err: Option<Error>)
      modifies this`jobRequest, this`success, this`commands, if spec.Some? then {spec.value.trainingInput} else {}
      ensures var view := if spec.Some? then Some((spec.value.jobId, old(spec.value.trainingInput.entries))) else None;
              Submission(success, err) == TrainSubmitSpec(executor, globals, view, hypertune, outcome, shellOk, old(success))
      ensures spec.Some? && executor.Mlapi? ==>
                spec.value.trainingInput.entries == TrainRequest(old(spec.value.trainingInput.entries)).entries
      ensures spec.Some? && !executor.Mlapi? ==> unchanged(spec.value.trainingInput)
      ensures executor.Gcloud? ==>
                if spec.Some? && TrainCommand(spec.value.jobId, old(spec.value.trainingInput.entries), hypertune).Ok?
                then commands == old(commands)
                                 + [TrainCommand(spec.value.jobId, old(spec.value.trainingInput.entries), hypertune).value]
                else commands == old(commands)
      ensures !executor.Gcloud? ==> commands == old(commands)
      ensures if && executor.Mlapi? && spec.Some?
                 && TrainRequest(old(spec.value.trainingInput.entries)).error.None? && Credentials(globals).Ok?
              then jobRequest == Some(JobRequest("projects/" + ToStr(projectName), spec.value))
              else jobRequest == old(jobRequest)
    {
      var view := if spec.Some? then Some((spec.value.jobId, spec.value.trainingInput.entries)) else None;
      if executor.Mlapi? {
        err := CreateJobRequest(spec);
        if err.Some? {
          return;
        }
      }
      err := ExecuteJobRequest(view, outcome, shellOk);
    }
  }
}
