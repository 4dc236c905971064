/**
 * The in-place rewrite of a spec's `trainingInput` dict into the request body the remote
 * API expects: the image moves under `masterConfig`, user args get `--` names, and the
 * stage's flag/value pairs are popped from the dict and appended to the args. Shared by
 * the package train and postprocess handlers and the root preprocess and score handlers.
 */
module ArgTranslation {
  import opened Results
  import opened PyStr
  import opened Values

  // ---------------------------------------------------------------- user args

  /** The user args after the even-index loop: every name (even index) gets `--` through `str`. */
  function PrefixNames(args: seq<Value>): (r: seq<Value>)
    ensures |r| == |args|
    ensures forall i :: 0 <= i < |args| && i % 2 == 1 ==> r[i] == args[i]
    ensures forall i :: 0 <= i < |args| && i % 2 == 0 ==> r[i] == Str("--" + ToStr(args[i]))
    decreases |args|
  {
    if |args| == 0 then []
    else if |args| == 1 then [Str("--" + ToStr(args[0]))]
    else
      var rest := PrefixNames(args[2..]);
      assert forall i :: 2 <= i < |args| ==> args[2..][i - 2] == args[i] && (i - 2) % 2 == i % 2;
      [Str("--" + ToStr(args[0])), args[1]] + rest
  }

  /** `for idx, item in enumerate(args): if idx % 2 == 0: args[idx] = '--' + str(args[idx])` */
  method PrefixArgNames(args: seq<Value>) returns (r: seq<Value>)
    ensures r == PrefixNames(args)
  {
    r := args;
    var idx := 0;
    while idx < |r|
      invariant 0 <= idx <= |r| == |args|
      invariant forall j :: 0 <= j < idx ==> r[j] == PrefixNames(args)[j]
      invariant forall j :: idx <= j < |r| ==> r[j] == args[j]
    {
      if idx % 2 == 0 {
        r := r[idx := Str("--" + ToStr(r[idx]))];
      }
      idx := idx + 1;
    }
  }

  /**
   * What the args are before the stage flags: a list the flags can be appended to, a value
   * the prefix loop passes over but `+=` with a list rejects, or the exception the loop raised.
   */
  datatype ArgsSeed = Extendable(items: seq<Value>) | Unextendable | Failed(error: Error)

  /**
   * `args` after `if args is None: args = [] else: <prefix loop>`. A list is prefixed; an
   * empty string or dict passes the loop untouched (it has nothing to enumerate) but cannot
   * take `+=` of a list; a non-empty dict fails reading `args[0]` (KeyError), a non-empty
   * string fails assigning to it, and an int or a bool fail in `enumerate` (TypeError).
   */
  function NormalizeArgs(v: Value): (r: ArgsSeed)
    ensures r.Extendable? <==> v.Null? || v.List?
    ensures v.Null? ==> r == Extendable([])
    ensures v.List? ==> r == Extendable(PrefixNames(v.items))
    ensures r.Unextendable? <==> v == Str("") || v == Dict(map[])
    ensures r.Failed? ==> r.error == (if v.Dict? then KeyError else TypeError)
  {
    match v
    case Null => Extendable([])
    case List(xs) => Extendable(PrefixNames(xs))
    case Dict(m) => if m != map[] then Failed(KeyError) else Unextendable
    case Str(s) => if s != [] then Failed(TypeError) else Unextendable
    case _ => Failed(TypeError)
  }

  // ---------------------------------------------------------------- the rewrite, as a function

  /** A `trainingInput` after a rewrite, and the exception that cut it short, if any. */
  datatype Outcome = Outcome(entries: map<string, Value>, error: Option<Error>)

  /** How a stage seeds the args before its flags: keep and prefix the user args, or start afresh. */
  datatype ArgsStart = KeepUserArgs | FreshArgs

  /** `ti['masterConfig'] = {'imageUri': ti.pop('imageUri')}`; the pop fails first, changing nothing. */
  function MoveImage(ti: map<string, Value>): (r: Outcome)
    ensures r.error.None? <==> "imageUri" in ti
    ensures r.error.Some? ==> r == Outcome(ti, Some(KeyError))
    ensures r.error.None? ==> "imageUri" !in r.entries && "masterConfig" in r.entries
                              && r.entries["masterConfig"] == Dict(map["imageUri" := ti["imageUri"]])
    ensures r.error.None? ==> forall k :: k in ti && k != "imageUri" && k != "masterConfig" ==> k in r.entries && r.entries[k] == ti[k]
  {
    match Lookup(ti, "imageUri")
    case Err(e) => Outcome(ti, Some(e))
    case Ok(image) => Outcome((ti - {"imageUri"})["masterConfig" := Dict(map["imageUri" := image])], None)
  }

  /** The args before the stage flags: the normalised user args, or `[]` for a fresh start. */
  function StartArgs(ti: map<string, Value>, start: ArgsStart): (r: ArgsSeed)
    ensures start.FreshArgs? ==> r == Extendable([])
    ensures start.KeepUserArgs? && "args" !in ti ==> r == Failed(KeyError)
  {
    match start
    case FreshArgs => Extendable([])
    case KeepUserArgs =>
      if "args" !in ti then Failed(KeyError) else NormalizeArgs(ti["args"])
  }

  /**
   * The first `ti['args'] += [flag, ti.pop(key)]` when the args cannot take a list: the pop
   * runs before the `+=`, so a present key is gone when the TypeError is raised, and a
   * missing one raises KeyError instead. Without flags nothing happens.
   */
  function AppendToUnextendable(ti: map<string, Value>, flags: seq<(string, string)>): (r: Outcome)
    ensures flags == [] ==> r == Outcome(ti, None)
    ensures flags != [] && flags[0].1 !in ti ==> r == Outcome(ti, Some(KeyError))
    ensures flags != [] && flags[0].1 in ti ==> r == Outcome(ti - {flags[0].1}, Some(TypeError))
  {
    if flags == [] then Outcome(ti, None)
    else
      match Lookup(ti, flags[0].1)
      case Err(e) => Outcome(ti, Some(e))
      case Ok(_) => Outcome(ti - {flags[0].1}, Some(TypeError))
  }

  /**
   * `ti['args'] += [flag, ti.pop(key)]` for each flag in turn; the pop of a missing key
   * raises KeyError after the earlier flags were appended.
   */
  function AppendFlags(ti: map<string, Value>, args: seq<Value>, flags: seq<(string, string)>): (r: Outcome)
    decreases |flags|
  {
    if flags == [] then Outcome(ti, None)
    else
      var flag, key := flags[0].0, flags[0].1;
      match Lookup(ti, key)
      case Err(e) => Outcome(ti, Some(e))
      case Ok(v) =>
        var args' := args + [Str(flag), v];
        AppendFlags((ti - {key})["args" := List(args')], args', flags[1..])
  }

  /** The whole rewrite: move the image, seed the args, append the flags, stopping at the first exception. */
  function Translate(ti: map<string, Value>, start: ArgsStart, flags: seq<(string, string)>): Outcome
  {
    var moved := MoveImage(ti);
    if moved.error.Some? then moved
    else match StartArgs(moved.entries, start)
      case Failed(e) => Outcome(moved.entries, Some(e))
      case Unextendable => AppendToUnextendable(moved.entries, flags)
      case Extendable(args) => AppendFlags(moved.entries["args" := List(args)], args, flags)
  }

  // ---------------------------------------------------------------- what the rewrite promises

  /** The flag/value pairs appended for `flags`, values taken from `ti`. */
  function FlagPairs(ti: map<string, Value>, flags: seq<(string, string)>): (r: seq<Value>)
    requires forall i :: 0 <= i < |flags| ==> flags[i].1 in ti
    ensures |r| == 2 * |flags|
    decreases |flags|
  {
    if flags == [] then [] else [Str(flags[0].0), ti[flags[0].1]] + FlagPairs(ti, flags[1..])
  }

  /** The keys the flags pop. */
  function FlagKeys(flags: seq<(string, string)>): set<string>
  {
    set i | 0 <= i < |flags| :: flags[i].1
  }

  /** Flags whose keys are distinct and are none of the keys the rewrite itself manages. */
  predicate WellFormedFlags(flags: seq<(string, string)>)
  {
    && (forall i, j :: 0 <= i < j < |flags| ==> flags[i].1 != flags[j].1)
    && (forall i :: 0 <= i < |flags| ==> flags[i].1 !in {"args", "imageUri", "masterConfig"})
  }

  /** The first step of AppendFlags when its key is present: pop it and append the pair. Proof aid. */
  lemma AppendFlagsStep(ti: map<string, Value>, args: seq<Value>, flags: seq<(string, string)>)
    requires flags != [] && flags[0].1 in ti
    ensures var args' := args + [Str(flags[0].0), ti[flags[0].1]];
            AppendFlags(ti, args, flags) == AppendFlags((ti - {flags[0].1})["args" := List(args')], args', flags[1..])
  {
  }

  /** AppendFlags fails exactly when a key is missing, and then with KeyError. */
  lemma {:induction false} AppendFlagsError(ti: map<string, Value>, args: seq<Value>, flags: seq<(string, string)>)
    requires WellFormedFlags(flags)
    ensures var r := AppendFlags(ti, args, flags);
            && (r.error.None? <==> forall i :: 0 <= i < |flags| ==> flags[i].1 in ti)
            && (r.error.Some? ==> r.error.value == KeyError)
    decreases |flags|
  {
    if flags != [] {
      var key := flags[0].1;
      var tail := flags[1..];
      assert WellFormedFlags(tail);
      if key in ti {
        var args' := args + [Str(flags[0].0), ti[key]];
        var ti' := (ti - {key})["args" := List(args')];
        AppendFlagsStep(ti, args, flags);
        AppendFlagsError(ti', args', tail);
        assert forall i :: 0 <= i < |tail| ==> (tail[i].1 in ti' <==> tail[i].1 in ti);
      } else {
        assert flags[0].1 !in ti;
      }
    }
  }

  /** A successful AppendFlags pops every flag key and leaves all other keys but `args` as they were. */
  lemma {:induction false} AppendFlagsKeys(ti: map<string, Value>, args: seq<Value>, flags: seq<(string, string)>)
    requires WellFormedFlags(flags)
    requires "args" in ti
    requires AppendFlags(ti, args, flags).error.None?
    ensures var r := AppendFlags(ti, args, flags);
            && r.entries.Keys == ti.Keys - FlagKeys(flags)
            && (forall k :: k in r.entries && k != "args" ==> r.entries[k] == ti[k])
    decreases |flags|
  {
    if flags != [] {
      var key := flags[0].1;
      var tail := flags[1..];
      assert WellFormedFlags(tail);
      var args' := args + [Str(flags[0].0), ti[key]];
      var ti' := (ti - {key})["args" := List(args')];
      AppendFlagsStep(ti, args, flags);
      AppendFlagsKeys(ti', args', tail);
      assert FlagKeys(flags) == {key} + FlagKeys(tail);
    }
  }

  /** A successful AppendFlags leaves the args followed by every flag/value pair, in order. */
  lemma {:induction false} AppendFlagsArgs(ti: map<string, Value>, args: seq<Value>, flags: seq<(string, string)>)
    requires WellFormedFlags(flags)
    requires AppendFlags(ti, args, flags).error.None?
    ensures forall i :: 0 <= i < |flags| ==> flags[i].1 in ti
    ensures "args" in AppendFlags(ti, args, flags).entries || flags == []
    ensures flags != [] ==> AppendFlags(ti, args, flags).entries["args"] == List(args + FlagPairs(ti, flags))
    decreases |flags|
  {
    AppendFlagsError(ti, args, flags);
    if flags != [] {
      var flag, key := flags[0].0, flags[0].1;
      var tail := flags[1..];
      assert WellFormedFlags(tail);
      var args' := args + [Str(flag), ti[key]];
      var ti' := (ti - {key})["args" := List(args')];
      AppendFlagsStep(ti, args, flags);
      if tail != [] {
        AppendFlagsArgs(ti', args', tail);
        assert forall i :: 0 <= i < |tail| ==> ti'[tail[i].1] == ti[tail[i].1];
        FlagPairsFrame(ti', ti, tail);
      }
      AppendAssociates(args, [Str(flag), ti[key]], FlagPairs(ti, tail));
    }
  }

  /** Sequence concatenation associates. Proof aid. */
  lemma AppendAssociates(a: seq<Value>, b: seq<Value>, c: seq<Value>)
    ensures (a + b) + c == a + (b + c)
  {
  }

  /**
   * AppendFlags fails exactly when a key is missing; on success it appends every pair in
   * order, pops every flag key and leaves all other keys as they were.
   */
  lemma AppendFlagsSpec(ti: map<string, Value>, args: seq<Value>, flags: seq<(string, string)>)
    requires WellFormedFlags(flags)
    requires "args" in ti && ti["args"] == List(args)
    ensures var r := AppendFlags(ti, args, flags);
            && (r.error.None? <==> forall i :: 0 <= i < |flags| ==> flags[i].1 in ti)
            && (r.error.Some? ==> r.error.value == KeyError)
            && (r.error.None? ==>
                 && r.entries.Keys == ti.Keys - FlagKeys(flags)
                 && r.entries["args"] == List(args + FlagPairs(ti, flags))
                 && (forall k :: k in r.entries && k != "args" ==> r.entries[k] == ti[k]))
  {
    AppendFlagsError(ti, args, flags);
    if AppendFlags(ti, args, flags).error.None? {
      AppendFlagsKeys(ti, args, flags);
      AppendFlagsArgs(ti, args, flags);
    }
  }

  /** FlagPairs reads only the flag keys. */
  lemma {:induction false} FlagPairsFrame(a: map<string, Value>, b: map<string, Value>, flags: seq<(string, string)>)
    requires forall i :: 0 <= i < |flags| ==> flags[i].1 in a && flags[i].1 in b && a[flags[i].1] == b[flags[i].1]
    ensures FlagPairs(a, flags) == FlagPairs(b, flags)
    decreases |flags|
  {
    if flags != [] {
      FlagPairsFrame(a, b, flags[1..]);
    }
  }

  /**
   * A successful rewrite: the image sits under `masterConfig` and no longer at the top,
   * the args are the seeded args followed by every flag/value pair in order, the flag keys
   * are gone, and every other key is unchanged. User args that are an empty string or dict
   * lose the first flag's key and raise TypeError (KeyError when that key is missing).
   */
  lemma TranslateSpec(ti: map<string, Value>, start: ArgsStart, flags: seq<(string, string)>)
    requires WellFormedFlags(flags)
    ensures var r := Translate(ti, start, flags);
            r.error.None? <==>
              && "imageUri" in ti
              && (start.KeepUserArgs? ==>
                    "args" in ti && (ti["args"].Null? || ti["args"].List? || (flags == [] && NormalizeArgs(ti["args"]).Unextendable?)))
              && (forall i :: 0 <= i < |flags| ==> flags[i].1 in ti)
    ensures var r := Translate(ti, start, flags);
            "imageUri" in ti && StartArgs(ti, start).Unextendable? && flags != [] ==>
              && r.error == Some(if flags[0].1 in ti then TypeError else KeyError)
              && r.entries == MoveImage(ti).entries - {flags[0].1}
    ensures var r := Translate(ti, start, flags);
            r.error.None? && flags != [] ==> StartArgs(ti, start).Extendable?
    ensures var r := Translate(ti, start, flags);
            r.error.None? && StartArgs(ti, start).Extendable? ==>
              && "imageUri" !in r.entries
              && "masterConfig" in r.entries && "imageUri" in ti
              && r.entries["masterConfig"] == Dict(map["imageUri" := ti["imageUri"]])
              && "args" in r.entries
              && (forall i :: 0 <= i < |flags| ==> flags[i].1 in ti)
              && r.entries["args"] == List(StartArgs(ti, start).items + FlagPairs(ti, flags))
              && (forall k :: k in FlagKeys(flags) ==> k !in r.entries)
              && (forall k :: k in ti && k !in FlagKeys(flags) && k !in {"args", "imageUri", "masterConfig"}
                    ==> k in r.entries && r.entries[k] == ti[k])
  {
    var moved := MoveImage(ti);
    if moved.error.None? {
      var m := moved.entries;
      assert forall i :: 0 <= i < |flags| ==> (flags[i].1 in m <==> flags[i].1 in ti);
      assert start.KeepUserArgs? ==> ("args" in m <==> "args" in ti);
      assert "args" in ti ==> m["args"] == ti["args"];
      assert StartArgs(m, start) == StartArgs(ti, start);
      match StartArgs(m, start)
      case Failed(_) =>
      case Unextendable =>
      case Extendable(args) =>
        var seeded := m["args" := List(args)];
        AppendFlagsSpec(seeded, args, flags);
        assert forall i :: 0 <= i < |flags| ==> (flags[i].1 in seeded <==> flags[i].1 in ti);
        if AppendFlags(seeded, args, flags).error.None? {
          FlagPairsFrame(seeded, ti, flags);
        }
    }
  }

  /** An even number of user args stays even: the flags come in pairs. */
  lemma TranslateKeepsArgsEven(ti: map<string, Value>, start: ArgsStart, flags: seq<(string, string)>)
    requires WellFormedFlags(flags)
    requires start.KeepUserArgs? ==> "args" in ti && ti["args"].List? && |ti["args"].items| % 2 == 0
    requires Translate(ti, start, flags).error.None?
    ensures "args" in Translate(ti, start, flags).entries && Translate(ti, start, flags).entries["args"].List?
    ensures |Translate(ti, start, flags).entries["args"].items| % 2 == 0
  {
    TranslateSpec(ti, start, flags);
  }

  // ---------------------------------------------------------------- the rewrite, in place

  /**
   * The image move and the args seeding, on the shared dict; `stuck` reports user args the
   * loop left alone but that cannot take `+=` of a list.
   */
  method StartTranslation(ti: PyDict, start: ArgsStart) returns (err: Option<Error>, stuck: bool)
    modifies ti
    ensures var moved := MoveImage(old(ti.entries));
            if moved.error.Some? then ti.entries == old(ti.entries) && err == moved.error && !stuck
            else match StartArgs(moved.entries, start)
              case Failed(e) => ti.entries == moved.entries && err == Some(e) && !stuck
              case Unextendable => ti.entries == moved.entries && err.None? && stuck
              case Extendable(args) => ti.entries == moved.entries["args" := List(args)] && err.None? && !stuck
  {
    stuck := false;
    if "imageUri" !in ti.entries {
      return Some(KeyError), false;
    }
    var image := ti.entries["imageUri"];
    ti.entries := (ti.entries - {"imageUri"})["masterConfig" := Dict(map["imageUri" := image])];
    match start
    case FreshArgs =>
      ti.entries := ti.entries["args" := List([])];
      err := None;
    case KeepUserArgs =>
      if "args" !in ti.entries {
        return Some(KeyError), false;
      }
      match ti.entries["args"]
      case Null =>
        ti.entries := ti.entries["args" := List([])];
        err := None;
      case List(xs) =>
        var prefixed := PrefixArgNames(xs);
        ti.entries := ti.entries["args" := List(prefixed)];
        err := None;
      case Dict(m) =>
        if m != map[] {
          err := Some(KeyError);
        } else {
          err, stuck := None, true;
        }
      case Str(s) =>
        if s != [] {
          err := Some(TypeError);
        } else {
          err, stuck := None, true;
        }
      case _ =>
        err := Some(TypeError);
  }

  /** `ti['args'] += [flag, ti.pop(key)]` on the shared dict, after a successful start. */
  method AppendFlag(ti: PyDict, flag: string, key: string) returns (err: Option<Error>)
    requires "args" in ti.entries && ti.entries["args"].List?
    requires key != "args"
    modifies ti
    ensures key !in old(ti.entries) ==> err == Some(KeyError) && ti.entries == old(ti.entries)
    ensures key in old(ti.entries) ==>
              && err.None?
              && ti.entries == (old(ti.entries) - {key})["args" := List(old(ti.entries)["args"].items + [Str(flag), old(ti.entries)[key]])]
  {
    if key !in ti.entries {
      return Some(KeyError);
    }
    var v := ti.entries[key];
    var args := ti.entries["args"].items;
    ti.entries := (ti.entries - {key})["args" := List(args + [Str(flag), v])];
    err := None;
  }

  /**
   * A stage's `translate_job_specs` body on the shared dict: the start, then one append per
   * flag; it ends in the state Translate describes.
   */
  method TranslateInPlace(ti: PyDict, start: ArgsStart, flags: seq<(string, string)>) returns (err: Option<Error>)
    requires forall i :: 0 <= i < |flags| ==> flags[i].1 != "args"
    modifies ti
    ensures Outcome(ti.entries, err) == Translate(old(ti.entries), start, flags)
  {
    var stuck;
    err, stuck := StartTranslation(ti, start);
    if err.Some? {
      return;
    }
    if stuck {
      if flags != [] {
        var key := flags[0].1;
        if key !in ti.entries {
          return Some(KeyError);
        }
        ti.entries := ti.entries - {key};
        err := Some(TypeError);
      }
      return;
    }
    var i := 0;
    while i < |flags|
      invariant 0 <= i <= |flags| && err.None?
      invariant "args" in ti.entries && ti.entries["args"].List?
      invariant Translate(old(ti.entries), start, flags)
                == AppendFlags(ti.entries, ti.entries["args"].items, flags[i..])
    {
      assert flags[i..][1..] == flags[i + 1..];
      err := AppendFlag(ti, flags[i].0, flags[i].1);
      if err.Some? {
        return;
      }
      i := i + 1;
    }
    assert flags[i..] == [];
  }
}
