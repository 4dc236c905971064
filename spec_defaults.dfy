/**
 * The layered default resolution of `create_job_specs`, shared by every spec handler: for
 * each spec key in turn, a key already in the inputs is kept (even when it holds None);
 * otherwise the key is classified as a global, a per-algorithm default or a hyper-tune key
 * and its value is read from the loaded configuration. The inputs dict is the caller's and
 * is filled in place. Also the registry lookup every spec handler constructor performs.
 */
module SpecDefaults {
  import opened Results
  import opened PyStr
  import opened Values

  /** The loaded configuration, passed in: deployment globals, `defaults.yml` and `hypertune.yml`. */
  datatype Config = Config(globals: map<string, Value>, defaults: map<string, Value>, hyper: map<string, Value>)

  /**
   * A handler's classification of spec keys: its global and default key lists, whether a
   * global `modelDir` is read from `MODEL_BUCKET_ADDRESS`, and which hyper-tune branches its
   * if-chain has.
   */
  datatype Layers = Layers(globalArgs: seq<string>, defaultArgs: seq<string>, modelDirFromBucket: bool,
                           hyperBranch: bool, metricTagBranch: bool)

  /** Where the value of a missing key comes from. */
  datatype Origin =
    | Global(name: string)   // `globals[name]`
    | Default                // `defaults[algorithm][key]`
    | Hyper                  // `hyper[algorithm]`
    | MetricTag              // `inputs["hyperparameters"]["hyperparameterMetricTag"]`

  /** The if/elif chain of the fill loop; a key in no branch raises NotImplementedError. */
  function OriginOf(item: string, layers: Layers): (r: Result<Origin>)
    ensures r.Err? <==> item !in layers.globalArgs && item !in layers.defaultArgs
                        && !(layers.hyperBranch && item == "hyperparameters")
                        && !(layers.metricTagBranch && item == "hypertuneLoss")
    ensures r.Err? ==> r.error == NotImplementedError
    ensures item in layers.globalArgs ==> r.Ok? && r.value.Global?
    ensures item in layers.globalArgs && !(item == "modelDir" && layers.modelDirFromBucket) ==> r == Ok(Global(item))
  {
    if item in layers.globalArgs then
      Ok(if item == "modelDir" && layers.modelDirFromBucket then Global("MODEL_BUCKET_ADDRESS") else Global(item))
    else if item in layers.defaultArgs then Ok(Default)
    else if layers.hyperBranch && item == "hyperparameters" then Ok(Hyper)
    else if layers.metricTagBranch && item == "hypertuneLoss" then Ok(MetricTag)
    else Err(NotImplementedError)
  }

  /** The value a missing key receives, read against the inputs as filled so far. */
  function Resolve(origin: Origin, item: string, entries: map<string, Value>, cfg: Config, algorithm: string): (r: Result<Value>)
    ensures r.Err? ==> r.error == KeyError || r.error == TypeError
  {
    match origin
    case Global(name) => Lookup(cfg.globals, name)
    case Default =>
      var perAlgorithm :- Lookup(cfg.defaults, algorithm);
      Get(perAlgorithm, item)
    case Hyper => Lookup(cfg.hyper, algorithm)
    case MetricTag =>
      var hyperparameters :- Lookup(entries, "hyperparameters");
      Get(hyperparameters, "hyperparameterMetricTag")
  }

  /** The inputs after the fill loop, and the exception that stopped it, if any. */
  datatype Filled = Filled(entries: map<string, Value>, error: Option<Error>)

  /** The keys of a plan. */
  function ItemSet(items: seq<string>): set<string>
  {
    set i | 0 <= i < |items| :: items[i]
  }

  /** No key is listed twice in a plan. */
  predicate Distinct(items: seq<string>)
  {
    forall i, j :: 0 <= i < j < |items| ==> items[i] != items[j]
  }

  /** The fill loop over `items`, as a function of the inputs it starts from. */
  function Fill(items: seq<string>, layers: Layers, entries: map<string, Value>, cfg: Config, algorithm: string): (r: Filled)
    ensures forall k :: k in entries ==> k in r.entries && r.entries[k] == entries[k]
    ensures r.entries.Keys <= entries.Keys + ItemSet(items)
    ensures r.error.None? ==> forall i :: 0 <= i < |items| ==> items[i] in r.entries
    ensures r.error.Some? ==> r.error.value in {KeyError, TypeError, NotImplementedError}
    decreases |items|
  {
    if items == [] then Filled(entries, None)
    else
      var item := items[0];
      var rest := Fill(items[1..], layers, entries, cfg, algorithm);
      assert ItemSet(items) == {item} + ItemSet(items[1..]);
      if item in entries then
        assert forall i :: 1 <= i < |items| ==> items[1..][i - 1] == items[i];
        rest
      else
        match OriginOf(item, layers)
        case Err(e) => Filled(entries, Some(e))
        case Ok(origin) =>
          match Resolve(origin, item, entries, cfg, algorithm)
          case Err(e) => Filled(entries, Some(e))
          case Ok(v) =>
            var r := Fill(items[1..], layers, entries[item := v], cfg, algorithm);
            assert forall i :: 1 <= i < |items| ==> items[1..][i - 1] == items[i];
            r
  }

  /** The fill loop on the shared inputs dict: it ends in the state Fill describes. */
  method FillInputs(inputs: PyDict, items: seq<string>, layers: Layers, cfg: Config, algorithm: string)
    returns (err: Option<Error>)
    modifies inputs
    ensures Filled(inputs.entries, err) == Fill(items, layers, old(inputs.entries), cfg, algorithm)
  {
    var i := 0;
    while i < |items|
      invariant 0 <= i <= |items|
      invariant Fill(items, layers, old(inputs.entries), cfg, algorithm) == Fill(items[i..], layers, inputs.entries, cfg, algorithm)
    {
      assert items[i..][1..] == items[i + 1..];
      var item := items[i];
      if item !in inputs.entries {
        var origin := OriginOf(item, layers);
        if origin.Err? {
          return Some(origin.error);
        }
        var v := Resolve(origin.value, item, inputs.entries, cfg, algorithm);
        if v.Err? {
          return Some(v.error);
        }
        inputs.entries := inputs.entries[item := v.value];
      }
      i := i + 1;
    }
    return None;
  }

  /**
   * A key that was missing and that no earlier item names gets the value of its own origin,
   * when that origin does not read the inputs.
   */
  lemma {:induction false} FillFromOrigin(items: seq<string>, layers: Layers, entries: map<string, Value>,
                                          cfg: Config, algorithm: string, k: nat)
    requires k < |items| && items[k] !in entries
    requires forall j :: 0 <= j < k ==> items[j] != items[k]
    requires OriginOf(items[k], layers).Ok? && !OriginOf(items[k], layers).value.MetricTag?
    requires Fill(items, layers, entries, cfg, algorithm).error.None?
    ensures Resolve(OriginOf(items[k], layers).value, items[k], entries, cfg, algorithm).Ok?
    ensures Fill(items, layers, entries, cfg, algorithm).entries[items[k]]
            == Resolve(OriginOf(items[k], layers).value, items[k], entries, cfg, algorithm).value
    decreases k
  {
    var item := items[0];
    if k == 0 {
      var r := Fill(items[1..], layers, entries[item := Resolve(OriginOf(item, layers).value, item, entries, cfg, algorithm).value], cfg, algorithm);
    } else {
      assert items[1..][k - 1] == items[k];
      assert forall j :: 0 <= j < k - 1 ==> items[1..][j] == items[j + 1];
      if item in entries {
        FillFromOrigin(items[1..], layers, entries, cfg, algorithm, k - 1);
      } else {
        var v := Resolve(OriginOf(item, layers).value, item, entries, cfg, algorithm).value;
        FillFromOrigin(items[1..], layers, entries[item := v], cfg, algorithm, k - 1);
      }
    }
  }

  /** FillFromOrigin for a global: the deployment value under the origin's name. */
  lemma FillFromGlobal(items: seq<string>, layers: Layers, entries: map<string, Value>, cfg: Config, algorithm: string,
                       k: nat, name: string)
    requires k < |items| && items[k] !in entries
    requires Distinct(items)
    requires OriginOf(items[k], layers) == Ok(Global(name))
    requires Fill(items, layers, entries, cfg, algorithm).error.None?
    ensures name in cfg.globals && Fill(items, layers, entries, cfg, algorithm).entries[items[k]] == cfg.globals[name]
  {
    FillFromOrigin(items, layers, entries, cfg, algorithm, k);
  }

  /** FillFromOrigin for a per-algorithm default: the algorithm's entry for the key. */
  lemma FillFromDefault(items: seq<string>, layers: Layers, entries: map<string, Value>, cfg: Config, algorithm: string,
                        k: nat)
    requires k < |items| && items[k] !in entries
    requires Distinct(items)
    requires OriginOf(items[k], layers) == Ok(Default)
    requires Fill(items, layers, entries, cfg, algorithm).error.None?
    ensures algorithm in cfg.defaults
    ensures Get(cfg.defaults[algorithm], items[k]) == Ok(Fill(items, layers, entries, cfg, algorithm).entries[items[k]])
  {
    FillFromOrigin(items, layers, entries, cfg, algorithm, k);
  }

  /** FillFromOrigin for the hyper-tune branch: the algorithm's entry of the hyper-tune file. */
  lemma FillFromHyper(items: seq<string>, layers: Layers, entries: map<string, Value>, cfg: Config, algorithm: string,
                      k: nat)
    requires k < |items| && items[k] !in entries
    requires Distinct(items)
    requires OriginOf(items[k], layers) == Ok(Hyper)
    requires Fill(items, layers, entries, cfg, algorithm).error.None?
    ensures algorithm in cfg.hyper && Fill(items, layers, entries, cfg, algorithm).entries[items[k]] == cfg.hyper[algorithm]
  {
    FillFromOrigin(items, layers, entries, cfg, algorithm, k);
  }

  /**
   * A missing `hypertuneLoss` that the plan lists after `hyperparameters` is the metric tag
   * of whatever `hyperparameters` the filled inputs hold, explicit or filled in.
   */
  lemma {:induction false} FillMetricTag(items: seq<string>, layers: Layers, entries: map<string, Value>,
                                         cfg: Config, algorithm: string, h: nat, k: nat)
    requires h < k < |items| && items[h] == "hyperparameters" && items[k] == "hypertuneLoss"
    requires "hypertuneLoss" !in entries
    requires forall j :: 0 <= j < k ==> items[j] != "hypertuneLoss"
    requires OriginOf("hypertuneLoss", layers) == Ok(MetricTag)
    requires Fill(items, layers, entries, cfg, algorithm).error.None?
    ensures var e := Fill(items, layers, entries, cfg, algorithm).entries;
            && "hyperparameters" in e
            && Get(e["hyperparameters"], "hyperparameterMetricTag") == Ok(e["hypertuneLoss"])
    decreases k
  {
    var item := items[0];
    assert items[1..][k - 1] == items[k];
    assert forall j :: 0 <= j < k - 1 ==> items[1..][j] == items[j + 1];
    var next := if item in entries then entries
                else entries[item := Resolve(OriginOf(item, layers).value, item, entries, cfg, algorithm).value];
    if h == 0 {
      assert "hyperparameters" in next;
      FillMetricTagAt(items[1..], layers, next, cfg, algorithm, k - 1);
    } else {
      assert items[1..][h - 1] == items[h];
      FillMetricTag(items[1..], layers, next, cfg, algorithm, h - 1, k - 1);
    }
  }

  /** FillMetricTag once `hyperparameters` is already in the inputs. */
  lemma {:induction false} FillMetricTagAt(items: seq<string>, layers: Layers, entries: map<string, Value>,
                                           cfg: Config, algorithm: string, k: nat)
    requires k < |items| && items[k] == "hypertuneLoss" && "hyperparameters" in entries
    requires "hypertuneLoss" !in entries
    requires forall j :: 0 <= j < k ==> items[j] != "hypertuneLoss"
    requires OriginOf("hypertuneLoss", layers) == Ok(MetricTag)
    requires Fill(items, layers, entries, cfg, algorithm).error.None?
    ensures var e := Fill(items, layers, entries, cfg, algorithm).entries;
            && "hyperparameters" in e
            && Get(e["hyperparameters"], "hyperparameterMetricTag") == Ok(e["hypertuneLoss"])
    decreases k
  {
    var item := items[0];
    if k == 0 {
      var v := Resolve(MetricTag, item, entries, cfg, algorithm).value;
      assert Get(entries["hyperparameters"], "hyperparameterMetricTag") == Ok(v);
    } else {
      assert items[1..][k - 1] == items[k];
      assert forall j :: 0 <= j < k - 1 ==> items[1..][j] == items[j + 1];
      var next := if item in entries then entries
                  else entries[item := Resolve(OriginOf(item, layers).value, item, entries, cfg, algorithm).value];
      FillMetricTagAt(items[1..], layers, next, cfg, algorithm, k - 1);
    }
  }

  /**
   * With a plan of distinct keys none of which reads the inputs, the fill succeeds exactly
   * when every missing key is classified and resolves.
   */
  lemma {:induction false} FillSucceeds(items: seq<string>, layers: Layers, entries: map<string, Value>,
                                        cfg: Config, algorithm: string)
    requires Distinct(items)
    requires forall i :: 0 <= i < |items| ==> OriginOf(items[i], layers).Ok? ==> !OriginOf(items[i], layers).value.MetricTag?
    ensures Fill(items, layers, entries, cfg, algorithm).error.None? <==>
            forall i :: 0 <= i < |items| && items[i] !in entries ==>
              OriginOf(items[i], layers).Ok? && Resolve(OriginOf(items[i], layers).value, items[i], entries, cfg, algorithm).Ok?
    decreases |items|
  {
    if items != [] {
      var item := items[0];
      var tail := items[1..];
      assert forall i :: 0 <= i < |tail| ==> tail[i] == items[i + 1] && tail[i] != item;
      if item in entries {
        FillSucceeds(tail, layers, entries, cfg, algorithm);
      } else if OriginOf(item, layers).Ok? {
        var origin := OriginOf(item, layers).value;
        if Resolve(origin, item, entries, cfg, algorithm).Ok? {
          var v := Resolve(origin, item, entries, cfg, algorithm).value;
          var next := entries[item := v];
          FillSucceeds(tail, layers, next, cfg, algorithm);
          forall i | 0 <= i < |tail| && OriginOf(tail[i], layers).Ok?
            ensures Resolve(OriginOf(tail[i], layers).value, tail[i], next, cfg, algorithm)
                    == Resolve(OriginOf(tail[i], layers).value, tail[i], entries, cfg, algorithm)
          {
            assert OriginOf(items[i + 1], layers).Ok?;
            ResolveIgnoresOtherKeys(OriginOf(tail[i], layers).value, tail[i], entries, cfg, algorithm, item, v);
          }
        }
      }
    }
  }

  /** Only the metric tag reads the inputs. */
  lemma ResolveIgnoresOtherKeys(origin: Origin, item: string, entries: map<string, Value>, cfg: Config,
                                algorithm: string, key: string, v: Value)
    requires !origin.MetricTag?
    ensures Resolve(origin, item, entries[key := v], cfg, algorithm) == Resolve(origin, item, entries, cfg, algorithm)
  {
  }

  // ---------------------------------------------------------------- model directory

  /** What `create_job_specs` leaves: the shared inputs, and the job id or the exception raised. */
  datatype SpecsOutcome = SpecsOutcome(entries: map<string, Value>, jobId: Result<string>)

  /** `inputs['modelDir'] = inputs['modelDir'] + suffix`: KeyError when absent, TypeError unless a string. */
  function AppendToModelDir(entries: map<string, Value>, suffix: string): (r: Result<map<string, Value>>)
    ensures r.Ok? <==> "modelDir" in entries && entries["modelDir"].Str?
    ensures r.Err? ==> r.error == (if "modelDir" in entries then TypeError else KeyError)
    ensures r.Ok? ==> r.value.Keys == entries.Keys && r.value["modelDir"] == Str(entries["modelDir"].s + suffix)
    ensures r.Ok? ==> forall k :: k in entries && k != "modelDir" ==> r.value[k] == entries[k]
  {
    var dir :- Lookup(entries, "modelDir");
    var s :- StrOperand(dir);
    Ok(entries["modelDir" := Str(s + suffix)])
  }

  /**
   * The tail every `create_job_specs` shares: a failed fill, then a failed name, leave the
   * filled dict as the outcome; otherwise, when the handler appends to the model directory
   * (`suffix` present), `modelDir` must be a string and gets the suffix.
   */
  function NamedSpecs(filled: Filled, id: Result<string>, suffix: Option<string>): (r: SpecsOutcome)
    ensures r.entries.Keys == filled.entries.Keys
    ensures forall k :: k in filled.entries && k != "modelDir" ==> r.entries[k] == filled.entries[k]
    ensures r.jobId.Ok? <==> filled.error.None? && id.Ok?
                             && (suffix.Some? ==> "modelDir" in filled.entries && filled.entries["modelDir"].Str?)
    ensures r.jobId.Ok? ==> r.jobId == id
    ensures r.jobId.Err? ==> r.jobId.error == (if filled.error.Some? then filled.error.value
                                               else if id.Err? then id.error
                                               else if "modelDir" in filled.entries then TypeError else KeyError)
    ensures r.jobId.Err? || suffix.None? ==> r.entries == filled.entries
    ensures r.jobId.Ok? && suffix.Some? ==> r.entries["modelDir"] == Str(filled.entries["modelDir"].s + suffix.value)
  {
    if filled.error.Some? then SpecsOutcome(filled.entries, Err(filled.error.value))
    else if id.Err? then SpecsOutcome(filled.entries, Err(id.error))
    else if suffix.None? then SpecsOutcome(filled.entries, id)
    else
      match AppendToModelDir(filled.entries, suffix.value)
      case Err(e) => SpecsOutcome(filled.entries, Err(e))
      case Ok(suffixed) => SpecsOutcome(suffixed, id)
  }

  // ---------------------------------------------------------------- registries

  /**
   * `deployment[registry][algorithm][index]` as the constructors read it, with a KeyError
   * anywhere turned into ValueError("Unknown algorithm"); other errors (an empty image list)
   * propagate. `index` is None where the whole entry is taken.
   */
  function RegistryImage(deployment: map<string, Value>, registry: string, algorithm: string, index: Option<int>): (r: Result<Value>)
    ensures r.Err? ==> r.error != KeyError
    ensures registry !in deployment ==> r == Err(ValueError)
    ensures registry in deployment && deployment[registry].Dict? && algorithm !in deployment[registry].fields ==> r == Err(ValueError)
    ensures registry in deployment && deployment[registry].Dict? && algorithm in deployment[registry].fields ==>
              r == (match index
                    case None => Ok(deployment[registry].fields[algorithm])
                    case Some(i) => var e := Index(deployment[registry].fields[algorithm], i);
                                    if e == Err(KeyError) then Err(ValueError) else e)
  {
    var entry :=
      var reg :- Lookup(deployment, registry);
      var byAlgorithm :- Get(reg, algorithm);
      match index
      case None => Ok(byAlgorithm)
      case Some(i) => Index(byAlgorithm, i);
    if entry == Err(KeyError) then Err(ValueError) else entry
  }
}
