/**
 * The dynamic values that flow through job specifications (Python dicts loaded from YAML
 * or built by the wrappers), the in-place dict they live in, and the job-state map.
 */
module Values {
  import opened Results
  import opened PyStr

  /** A Python value held in a job-spec dict. Floats are not modelled. */
  datatype Value =
    | Null
    | Bool(b: bool)
    | Int(i: int)
    | Str(s: string)
    | List(items: seq<Value>)
    | Dict(fields: map<string, Value>)

  /** Python truthiness: `if v:` */
  predicate Truthy(v: Value)
  {
    match v
    case Null => false
    case Bool(b) => b
    case Int(i) => i != 0
    case Str(s) => s != []
    case List(xs) => xs != []
    case Dict(m) => m != map[]
  }

  /** `str(v)`; for a list or a dict only a fixed marker stands for Python's repr. */
  function ToStr(v: Value): string
  {
    match v
    case Null => "None"
    case Bool(b) => if b then "True" else "False"
    case Int(i) => IntToString(i)
    case Str(s) => s
    case List(_) => "[...]"
    case Dict(_) => "{...}"
  }

  /** `m[k]` on a dict: KeyError when the key is missing. */
  function Lookup(m: map<string, Value>, k: string): (r: Result<Value>)
    ensures r.Ok? <==> k in m
    ensures r.Ok? ==> r.value == m[k]
    ensures r.Err? ==> r.error == KeyError
  {
    if k in m then Ok(m[k]) else Err(KeyError)
  }

  /** `v[k]` for a string key: a dict entry, KeyError when missing, TypeError on anything but a dict. */
  function Get(v: Value, k: string): (r: Result<Value>)
    ensures v.Dict? ==> r == Lookup(v.fields, k)
    ensures !v.Dict? ==> r == Err(TypeError)
  {
    if v.Dict? then Lookup(v.fields, k) else Err(TypeError)
  }

  /** The receiver of a string method (`v.lower()`, `v.split(...)`): AttributeError unless a string. */
  function StrReceiver(v: Value): (r: Result<string>)
    ensures r.Ok? <==> v.Str?
    ensures r.Ok? ==> r.value == v.s
    ensures r.Err? ==> r.error == AttributeError
  {
    if v.Str? then Ok(v.s) else Err(AttributeError)
  }

  /** An operand of `str + str`: TypeError unless a string. */
  function StrOperand(v: Value): (r: Result<string>)
    ensures r.Ok? <==> v.Str?
    ensures r.Ok? ==> r.value == v.s
    ensures r.Err? ==> r.error == TypeError
  {
    if v.Str? then Ok(v.s) else Err(TypeError)
  }

  /** `'...' + m[k]`: KeyError when the key is missing, TypeError unless its value is a string. */
  function StrEntry(m: map<string, Value>, k: string): (r: Result<string>)
    ensures r.Ok? <==> k in m && m[k].Str?
    ensures r.Ok? ==> r.value == m[k].s
    ensures r.Err? ==> r.error == (if k in m then TypeError else KeyError)
  {
    var v :- Lookup(m, k);
    StrOperand(v)
  }

  /** `v[i]` for an integer index: a one-character string of a string, an element of a list. */
  function Index(v: Value, i: int): (r: Result<Value>)
    ensures v.List? ==> r == At(v.items, i)
    ensures v.Str? && r.Ok? ==> r.value.Str? && |r.value.s| == 1
    ensures (v.Null? || v.Bool? || v.Int?) ==> r == Err(TypeError)
  {
    match v
    case Str(s) =>
      (match At(s, i)
       case Ok(ch) => Ok(Str([ch]))
       case Err(e) => Err(e))
    case List(xs) => At(xs, i)
    case Dict(_) => Err(KeyError)    // dict keys here are strings, never the integer `i`
    case _ => Err(TypeError)         // None, bool and int are not subscriptable
  }

  /**
   * A Python dict that several names share and that is updated in place: a spec handler's
   * `inputs` is the caller's dict and also becomes `job_specs['trainingInput']`.
   */
  class PyDict {
    var entries: map<string, Value>

    constructor (e: map<string, Value>)
      ensures entries == e
    {
      entries := e;
    }
  }

  /** `{'jobId': ..., 'trainingInput': ...}` as built by `create_job_specs`. */
  datatype JobSpec = JobSpec(jobId: string, trainingInput: PyDict)

  /** `job_executor`: the code compares it with 'mlapi' and 'gcloud' only; anything else (None too) is Unsupported. */
  datatype Executor = Mlapi | Gcloud | Unsupported

  /** What `request.execute()` did when a job was submitted through the remote API. */
  datatype ExecOutcome = Returned | HttpFailure | OtherFailure

  const Succeeded: string := "SUCCEEDED"
  const Failed: string := "FAILED"

  predicate Terminal(state: string) { state == Succeeded || state == Failed }

  /** A dict from job id to job state, with its keys in insertion (iteration) order. */
  datatype StateMap = StateMap(keys: seq<string>, states: map<string, string>)
  {
    ghost predicate Valid()
    {
      && (forall i, j :: 0 <= i < j < |keys| ==> keys[i] != keys[j])
      && (forall k :: k in states <==> k in keys)
    }

    /** `d[k] = v`: a new key goes last, an existing key keeps its place. */
    function Put(k: string, v: string): (d: StateMap)
      requires Valid()
      ensures d.Valid()
      ensures d.states == states[k := v]
      ensures k in states ==> d.keys == keys
      ensures k !in states ==> d.keys == keys + [k]
    {
      if k in states then StateMap(keys, states[k := v]) else StateMap(keys + [k], states[k := v])
    }
  }

  const EmptyStates: StateMap := StateMap([], map[])
}
