/**
 * The pure helpers of gcpaiutils/utils.py (hardware sizing, path parsing, job assessment,
 * timestamp padding). utils.py at the repository root holds the same two path parsers,
 * character for character, so they are modelled once here.
 */
module Utils {
  import opened Results
  import opened PyStr
  import opened Values

  // ---------------------------------------------------------------- hardware sizing

  const LinearAtoms: seq<string> := ["class_skl_logreg", "class_lda", "class_qda"]
  const BaselineAtoms: seq<string> := ["class_dummy", "aggregator"]
  const BoostedAtoms: seq<string> := ["class_xgb", "class_lgbm"]

  /**
   * `get_hardware_config(atom, data_size)`. The source's error branches execute
   * `raise (ValueError, msg)`, which raises a tuple: Python 3 turns that into TypeError.
   */
  function HardwareConfig(atom: string, dataSize: real): (r: Result<string>)
    ensures r.Err? <==> FamilyOf(atom).None? || dataSize > 3.0
    ensures r.Err? ==> r.error == TypeError
  {
    if atom in LinearAtoms then
      if dataSize <= 0.1 then Ok("n1-standard-4")
      else if dataSize <= 1.0 then Ok("n1-standard-8")
      else if dataSize <= 3.0 then Ok("n1-highmem-8")
      else Err(TypeError)
    else if atom in BaselineAtoms then
      if dataSize <= 0.5 then Ok("n1-standard-4")
      else if dataSize <= 1.0 then Ok("n1-standard-8")
      else if dataSize <= 3.0 then Ok("n1-highmem-8")
      else Err(TypeError)
    else if atom in BoostedAtoms then
      if dataSize <= 0.1 then Ok("n1-highmem-4")
      else if dataSize <= 3.0 then Ok("n1-highmem-8")
      else Err(TypeError)
    else
      Err(TypeError)
  }

  /** The three algorithm families that share a sizing chain. */
  datatype Family = Linear | Baseline | Boosted

  function FamilyOf(atom: string): Option<Family>
  {
    if atom in LinearAtoms then Some(Linear)
    else if atom in BaselineAtoms then Some(Baseline)
    else if atom in BoostedAtoms then Some(Boosted)
    else None
  }

  /** A family's chain of (largest data size in GB, machine type), smallest tier first. */
  function Tiers(f: Family): seq<(real, string)>
  {
    match f
    case Linear => [(0.1, "n1-standard-4"), (1.0, "n1-standard-8"), (3.0, "n1-highmem-8")]
    case Baseline => [(0.5, "n1-standard-4"), (1.0, "n1-standard-8"), (3.0, "n1-highmem-8")]
    case Boosted => [(0.1, "n1-highmem-4"), (3.0, "n1-highmem-8")]
  }

  /** The position of the first tier whose bound covers `size`; `|tiers|` when none does. */
  function TierIndex(tiers: seq<(real, string)>, size: real): (k: nat)
    ensures k <= |tiers|
    ensures forall j :: 0 <= j < k ==> size > tiers[j].0
    ensures k < |tiers| ==> size <= tiers[k].0
  {
    if tiers == [] then 0
    else if size <= tiers[0].0 then 0
    else 1 + TierIndex(tiers[1..], size)
  }

  /** The tier a size falls into, read off the table. */
  function TableLookup(atom: string, size: real): Result<string>
  {
    match FamilyOf(atom)
    case None => Err(TypeError)
    case Some(f) =>
      var k := TierIndex(Tiers(f), size);
      if k < |Tiers(f)| then Ok(Tiers(f)[k].1) else Err(TypeError)
  }

  /** The if/elif chain of the source is exactly a lookup in the per-family tier table. */
  lemma HardwareConfigIsTableLookup(atom: string, size: real)
    ensures HardwareConfig(atom, size) == TableLookup(atom, size)
  {
    match FamilyOf(atom)
    case None =>
    case Some(f) =>
      var t := Tiers(f);
      assert TierIndex(t, size) == if size <= t[0].0 then 0 else 1 + TierIndex(t[1..], size);
      assert t[1..][1..] == t[2..];
      if |t| == 3 {
        assert TierIndex(t[1..], size) == if size <= t[1].0 then 0 else 1 + TierIndex(t[2..], size);
        assert t[2..][1..] == [];
        assert TierIndex(t[2..], size) == if size <= t[2].0 then 0 else 1;
      } else {
        assert TierIndex(t[1..], size) == if size <= t[1].0 then 0 else 1;
      }
  }

  /** A larger size never lands on an earlier tier, whatever the table. */
  lemma {:induction false} TierIndexMonotone(tiers: seq<(real, string)>, a: real, b: real)
    requires a <= b
    ensures TierIndex(tiers, a) <= TierIndex(tiers, b)
    decreases |tiers|
  {
    if tiers != [] && a > tiers[0].0 {
      TierIndexMonotone(tiers[1..], a, b);
    }
  }

  /**
   * Monotone sizing: within a family, if a size is served, every smaller size is served too,
   * by a tier no later in the family's chain.
   */
  lemma HardwareMonotone(atom: string, a: real, b: real)
    requires a <= b
    requires HardwareConfig(atom, b).Ok?
    ensures HardwareConfig(atom, a).Ok?
    ensures FamilyOf(atom).Some?
    ensures TierIndex(Tiers(FamilyOf(atom).value), a) <= TierIndex(Tiers(FamilyOf(atom).value), b)
  {
    TierIndexMonotone(Tiers(FamilyOf(atom).value), a, b);
  }

  // ---------------------------------------------------------------- path parsing

  /** `get_atom_name_from_dir`: shards [4:-1] of the second-to-last `/` segment, joined by `_`. */
  function AtomNameFromDir(jobDir: string): (r: Result<string>)
    ensures r.Err? <==> '/' !in jobDir
    ensures r.Err? ==> r.error == IndexError
  {
    var segments := Split(jobDir, '/');
    SplitSingle(jobDir, '/');
    match At(segments, -2)
    case Err(e) => Err(e)
    case Ok(name) => Ok(Join(Slice(Split(name, '_'), 4, -1), "_"))
  }

  /** `[4:-1]` keeps the shards strictly between the fourth and the last; nothing for five or fewer. Proof aid. */
  lemma InnerShards<T>(s: seq<T>)
    ensures |s| <= 5 ==> Slice(s, 4, -1) == []
    ensures |s| > 5 ==> Slice(s, 4, -1) == s[4..|s| - 1]
  {
  }

  /**
   * For a directory `.../<name>/<last>` whose name is `_`-joined shards, the atom is the
   * inner shards of the name.
   */
  lemma AtomNameOfDir(segments: seq<string>, shards: seq<string>, last: string)
    requires forall i :: 0 <= i < |segments| ==> '/' !in segments[i]
    requires |shards| >= 1
    requires forall i :: 0 <= i < |shards| ==> '/' !in shards[i] && '_' !in shards[i]
    requires '/' !in last
    ensures AtomNameFromDir(Join(segments + [Join(shards, "_"), last], "/"))
            == Ok(Join(Slice(shards, 4, -1), "_"))
  {
    var name := Join(shards, "_");
    JoinFree(shards, "_", '/');
    var parts := segments + [name, last];
    SplitJoin(parts, '/');
    SplitJoin(shards, '_');
    assert parts[|parts| - 2] == name;
  }

  /**
   * A directory whose job name has exactly five `_` shards, such as the deployment script's
   * origin `gs://<bucket>/j<stamp>_<problem>_<lib>_<model>_<variant>/`, yields no atom at all:
   * `[4:-1]` of five shards is empty.
   */
  lemma AtomNameOfFiveShardDir(segments: seq<string>, shards: seq<string>, last: string)
    requires forall i :: 0 <= i < |segments| ==> '/' !in segments[i]
    requires |shards| == 5
    requires forall i :: 0 <= i < |shards| ==> '/' !in shards[i] && '_' !in shards[i]
    requires '/' !in last
    ensures AtomNameFromDir(Join(segments + [Join(shards, "_"), last], "/")) == Ok("")
  {
    AtomNameOfDir(segments, shards, last);
    InnerShards(shards);
  }

  /** The `_` shards of the part of an info path before its first `.`. */
  function InfoShards(infoPath: string): seq<string>
  {
    Split(Split(infoPath, '.')[0], '_')
  }

  /**
   * `get_model_path_from_info_path`: around the first `info` shard, `pre/model_post.pkl`;
   * ValueError (from `list.index`) when no shard is `info`.
   */
  function ModelPathFromInfoPath(infoPath: string): (r: Result<string>)
    ensures r.Err? <==> "info" !in InfoShards(infoPath)
    ensures r.Err? ==> r.error == ValueError
  {
    var shards := InfoShards(infoPath);
    match FirstIndex(shards, "info")
    case Err(e) => Err(e)
    case Ok(idx) => Ok(Join(shards[..idx], "_") + "/model_" + Join(shards[idx + 1..], "_") + ".pkl")
  }

  /**
   * The info file of a model named by shards `pre` and `post` around `info`, with any
   * extension, maps back to `pre/model_post.pkl`; only the text before the first `.` counts.
   */
  lemma ModelPathOfInfoName(pre: seq<string>, post: seq<string>, ext: string)
    requires forall i :: 0 <= i < |pre| ==> '_' !in pre[i] && '.' !in pre[i] && pre[i] != "info"
    requires forall i :: 0 <= i < |post| ==> '_' !in post[i] && '.' !in post[i]
    ensures ModelPathFromInfoPath(Join(pre + ["info"] + post, "_") + "." + ext)
            == Ok(Join(pre, "_") + "/model_" + Join(post, "_") + ".pkl")
  {
    var shards := pre + ["info"] + post;
    var stem := Join(shards, "_");
    JoinFree(shards, "_", '.');
    SplitConcat(stem, ext, '.');
    assert stem + "." + ext == stem + ['.'] + ext;
    SplitJoin(shards, '_');
    assert InfoShards(stem + "." + ext) == shards;
    assert shards[|pre|] == "info";
    assert shards[..|pre|] == pre;
    assert shards[|pre| + 1..] == post;
    assert "info" !in shards[..|pre|];
    FirstIndexAt(shards, "info", |pre|);
  }

  // ---------------------------------------------------------------- job assessment

  /** The keys whose state is `state`, in iteration order. */
  function KeysInState(keys: seq<string>, states: map<string, string>, state: string): (r: seq<string>)
    requires forall k :: k in keys ==> k in states
    ensures forall x :: x in r <==> x in keys && states[x] == state
    ensures |r| <= |keys|
  {
    if keys == [] then []
    else (if states[keys[0]] == state then [keys[0]] else []) + KeysInState(keys[1..], states, state)
  }

  /**
   * The filter of a sequence that starts with `k`: `k` if it is in the state, then the filter of the rest.
   * Proof aid.
   */
  lemma KeysInStateCons(k: string, rest: seq<string>, states: map<string, string>, state: string)
    requires k in states
    requires forall x :: x in rest ==> x in states
    ensures KeysInState([k] + rest, states, state)
            == (if states[k] == state then [k] else []) + KeysInState(rest, states, state)
  {
    assert ([k] + rest)[0] == k;
    assert ([k] + rest)[1..] == rest;
  }

  /** Filtering keeps iteration order: the filter of a concatenation is the concatenation of the filters. */
  lemma {:induction false} KeysInStateAppend(a: seq<string>, b: seq<string>, states: map<string, string>, state: string)
    requires forall k :: k in a ==> k in states
    requires forall k :: k in b ==> k in states
    ensures KeysInState(a + b, states, state) == KeysInState(a, states, state) + KeysInState(b, states, state)
    decreases |a|
  {
    if a != [] {
      KeysInStateAppend(a[1..], b, states, state);
      var head := if states[a[0]] == state then [a[0]] else [];
      var x, y := KeysInState(a[1..], states, state), KeysInState(b, states, state);
      PeelFirst(a, b);
      KeysInStateCons(a[0], a[1..] + b, states, state);
      AppendAssoc(head, x, y);
    } else {
      assert a + b == b;
    }
  }

  /** `sub` is `s` with some elements dropped, the rest kept in their order. */
  predicate IsSubsequence(sub: seq<string>, s: seq<string>)
    decreases |s|
  {
    if sub == [] then true
    else if s == [] then false
    else if sub[0] == s[0] then IsSubsequence(sub[1..], s[1..])
    else IsSubsequence(sub, s[1..])
  }

  /** The keys in a state come out in the order the keys are iterated. */
  lemma {:induction false} KeysInStateOrder(keys: seq<string>, states: map<string, string>, state: string)
    requires forall k :: k in keys ==> k in states
    ensures IsSubsequence(KeysInState(keys, states, state), keys)
    decreases |keys|
  {
    if keys != [] {
      KeysInStateOrder(keys[1..], states, state);
      var rest := KeysInState(keys[1..], states, state);
      if states[keys[0]] == state {
        assert KeysInState(keys, states, state) == [keys[0]] + rest;
        assert ([keys[0]] + rest)[1..] == rest;
      } else {
        assert KeysInState(keys, states, state) == rest;
        SkipHead(rest, keys);
      }
    }
  }

  /** A subsequence of the tail is a subsequence of the whole. Proof aid. */
  lemma {:induction false} SkipHead(sub: seq<string>, s: seq<string>)
    requires s != []
    requires IsSubsequence(sub, s[1..])
    ensures IsSubsequence(sub, s)
    decreases |s|, 1
  {
    if sub != [] && sub[0] == s[0] {
      DropHead(sub, s[1..]);
    }
  }

  /** Dropping the first element of a subsequence leaves a subsequence. Proof aid. */
  lemma {:induction false} DropHead(sub: seq<string>, s: seq<string>)
    requires sub != []
    requires IsSubsequence(sub, s)
    ensures IsSubsequence(sub[1..], s)
    decreases |s|, 2
  {
    if sub[0] == s[0] {
      SkipHead(sub[1..], s);
    } else {
      DropHead(sub, s[1..]);
      SkipHead(sub[1..], s);
    }
  }

  /**
   * `get_job_assessment(status)`: the SUCCEEDED jobs in iteration order, or ValueError
   * when at least one job FAILED. Jobs in any other state are neither returned nor an error.
   */
  function JobAssessment(status: StateMap): (r: Result<seq<string>>)
    requires status.Valid()
    ensures r.Err? <==> exists k :: k in status.keys && status.states[k] == Failed
    ensures r.Err? ==> r.error == ValueError
    ensures r.Ok? ==> forall x :: x in r.value <==> x in status.keys && status.states[x] == Succeeded
    ensures r.Ok? ==> IsSubsequence(r.value, status.keys)
  {
    KeysInStateOrder(status.keys, status.states, Succeeded);
    var failed := KeysInState(status.keys, status.states, Failed);
    if |failed| >= 1 then
      assert failed[0] in failed;
      Err(ValueError)
    else
      Ok(KeysInState(status.keys, status.states, Succeeded))
  }

  // ---------------------------------------------------------------- timestamps

  /** The clock reading `dt.now()` that job names are stamped with. */
  datatype Timestamp = Timestamp(year: nat, month: nat, day: nat, hour: nat, minute: nat, second: nat)
  {
    predicate Valid()
    {
      1 <= year <= 9999 && 1 <= month <= 12 && 1 <= day <= 31 && hour < 24 && minute < 60 && second < 60
    }
  }

  /** `str(x) if x > 9 else '0' + str(x)`: two digits that read back as `x`, for every `x` below 100. */
  function Pad2(x: nat): (r: string)
    ensures AllDigits(r)
    ensures x < 100 ==> |r| == 2 && ParseNat(r) == x
  {
    ParseNatToString(x);
    NatToStringLength(x);
    if x > 9 then NatToString(x)
    else
      var r := "0" + NatToString(x);
      assert r[..1] == "0";
      r
  }

  /** `get_timestamp_components()`: the year unpadded, the other five fields padded to two digits. */
  function TimestampComponents(t: Timestamp): (r: (string, string, string, string, string, string))
    ensures r.0 == NatToString(t.year)
    ensures t.Valid() ==> |r.1| == 2 && |r.2| == 2 && |r.3| == 2 && |r.4| == 2 && |r.5| == 2
  {
    (NatToString(t.year), Pad2(t.month), Pad2(t.day), Pad2(t.hour), Pad2(t.minute), Pad2(t.second))
  }

  /** `year + month + day + hour + minute + second` as the job-name generators concatenate them. */
  function Stamp(t: Timestamp): (r: string)
    ensures AllDigits(r)
  {
    var c := TimestampComponents(t);
    c.0 + c.1 + c.2 + c.3 + c.4 + c.5
  }

  /** A stamp is digits only. Proof aid. */
  lemma StampSeparatorFree(t: Timestamp)
    ensures '_' !in Stamp(t) && '/' !in Stamp(t)
  {
    var s := Stamp(t);
    forall ch | ch in s ensures ch != '_' && ch != '/' {
      var i :| 0 <= i < |s| && s[i] == ch;
    }
  }

  /**
   * For a four-digit year the stamp is 14 digits, and each field reads back from its
   * position: the stamp determines the clock reading.
   */
  lemma StampLayout(t: Timestamp)
    requires t.Valid() && t.year >= 1000
    ensures |Stamp(t)| == 14 && AllDigits(Stamp(t))
    ensures ParseNat(Stamp(t)[..4]) == t.year
    ensures ParseNat(Stamp(t)[4..6]) == t.month && ParseNat(Stamp(t)[6..8]) == t.day
    ensures ParseNat(Stamp(t)[8..10]) == t.hour && ParseNat(Stamp(t)[10..12]) == t.minute
    ensures ParseNat(Stamp(t)[12..14]) == t.second
  {
    var c := TimestampComponents(t);
    NatToStringLength(t.year);
    ParseNatToString(t.year);
    var s := Stamp(t);
    assert s == c.0 + c.1 + c.2 + c.3 + c.4 + c.5;
    assert s[..4] == c.0;
    assert s[4..6] == c.1;
    assert s[6..8] == c.2;
    assert s[8..10] == c.3;
    assert s[10..12] == c.4;
    assert s[12..14] == c.5;
  }

  /** Different clock readings (four-digit years) give different stamps. */
  lemma StampInjective(t1: Timestamp, t2: Timestamp)
    requires t1.Valid() && t1.year >= 1000 && t2.Valid() && t2.year >= 1000
    requires Stamp(t1) == Stamp(t2)
    ensures t1 == t2
  {
    StampLayout(t1);
    StampLayout(t2);
  }
}
