/**
 * The job-id generators of the spec handlers (`_generate_job_name` in each copy). Each is
 * string concatenation over the spec inputs, the request ids and a clock reading; the clock
 * reading is a parameter.
 */
module JobNames {
  import opened Results
  import opened PyStr
  import opened Values
  import opened Utils

  // ---------------------------------------------------------------- package ids

  /** `s.lower().replace("-", "")`: how a request id enters a package job id. */
  function Clean(s: string): (r: string)
    ensures '-' !in r
    ensures forall ch :: ch in r ==> !('A' <= ch <= 'Z')
    ensures forall c :: c !in s && !('a' <= c <= 'z') ==> c !in r
  {
    var low := Lower(s);
    assert forall ch :: ch in low ==> !('A' <= ch <= 'Z') by {
      forall ch | ch in low ensures !('A' <= ch <= 'Z') {
        var i :| 0 <= i < |low| && low[i] == ch;
      }
    }
    assert forall c :: c !in s && !('a' <= c <= 'z') ==> c !in low by {
      forall c | c in low && !('a' <= c <= 'z') ensures c in s {
        var i :| 0 <= i < |low| && low[i] == c;
        assert LowerChar(s[i]) == c;
      }
    }
    RemoveChar(low, '-')
  }

  /** `request_ids[key]` used as a string: TypeError unless a dict, KeyError, AttributeError unless a string. */
  function RequestId(requestIds: Value, key: string): (r: Result<string>)
    ensures r.Ok? <==> requestIds.Dict? && key in requestIds.fields && requestIds.fields[key].Str?
    ensures r.Ok? ==> r.value == requestIds.fields[key].s
    ensures r.Err? && requestIds.Dict? && key !in requestIds.fields ==> r.error == KeyError
    ensures r.Err? ==> (r.error == KeyError <==> requestIds.Dict? && key !in requestIds.fields)
  {
    var v :- Get(requestIds, key);
    StrReceiver(v)
  }

  /** The fallback id when a request id is missing: no `_` between prefix and stamp. */
  function AnonymousName(prefix: string, t: Timestamp, algorithm: string): string
  {
    "anonymous_" + prefix + Stamp(t) + "_" + algorithm
  }

  /**
   * `JobSpecHandler._generate_job_name(prefix)` of the package: `prefix_user_problem_version_stamp_algorithm`
   * with the three ids cleaned; a missing id (KeyError) gives the anonymous form; any other
   * failure (ids that are not a dict, an id that is not a string) propagates.
   */
  function PkgJobName(prefix: string, requestIds: Value, t: Timestamp, algorithm: string): (r: Result<string>)
    ensures requestIds.Null? ==> r == Err(TypeError)
    ensures r.Err? ==> r.error != KeyError
  {
    match RequestId(requestIds, "user")
    case Err(KeyError) => Ok(AnonymousName(prefix, t, algorithm))
    case Err(e) => Err(e)
    case Ok(user) =>
      match RequestId(requestIds, "problem")
      case Err(KeyError) => Ok(AnonymousName(prefix, t, algorithm))
      case Err(e) => Err(e)
      case Ok(problem) =>
        match RequestId(requestIds, "version")
        case Err(KeyError) => Ok(AnonymousName(prefix, t, algorithm))
        case Err(e) => Err(e)
        case Ok(version) =>
          Ok(Join([prefix, Clean(user), Clean(problem), Clean(version), Stamp(t), algorithm], "_"))
  }

  /** The three request ids of a dict whose ids are all strings. */
  predicate HasStringIds(requestIds: Value)
  {
    requestIds.Dict? && (forall k :: k in requestIds.fields ==> requestIds.fields[k].Str?)
  }

  /** With a dict of string ids, the generator never fails; with one id missing it is anonymous. */
  lemma PkgJobNameTotal(prefix: string, requestIds: Value, t: Timestamp, algorithm: string)
    requires HasStringIds(requestIds)
    ensures PkgJobName(prefix, requestIds, t, algorithm).Ok?
    ensures !("user" in requestIds.fields && "problem" in requestIds.fields && "version" in requestIds.fields)
            ==> PkgJobName(prefix, requestIds, t, algorithm) == Ok(AnonymousName(prefix, t, algorithm))
  {
  }

  /** A request id that is present but not a string raises AttributeError (when the earlier ids are strings). */
  lemma PkgJobNameNonStringId(prefix: string, requestIds: Value, t: Timestamp, algorithm: string)
    requires requestIds.Dict? && "user" in requestIds.fields && !requestIds.fields["user"].Str?
    ensures PkgJobName(prefix, requestIds, t, algorithm) == Err(AttributeError)
  {
  }

  /**
   * With all three ids present, the id splits on `_` into the prefix, the three cleaned ids,
   * the stamp and the algorithm's own shards: the algorithm is kept verbatim, at the end.
   */
  lemma {:induction false} PkgJobNameShards(prefix: string, user: string, problem: string, version: string,
                                            t: Timestamp, algorithm: string)
    requires '_' !in prefix && '_' !in user && '_' !in problem && '_' !in version
    ensures var ids := Dict(map["user" := Str(user), "problem" := Str(problem), "version" := Str(version)]);
            && PkgJobName(prefix, ids, t, algorithm).Ok?
            && Split(PkgJobName(prefix, ids, t, algorithm).value, '_')
               == [prefix, Clean(user), Clean(problem), Clean(version), Stamp(t)] + Split(algorithm, '_')
  {
    var u, p, v, s := Clean(user), Clean(problem), Clean(version), Stamp(t);
    PkgJobNameOfIds(prefix, user, problem, version, t, algorithm);
    assert '_' !in s && '_' !in u && '_' !in p && '_' !in v;
    assert [prefix, u, p, v, s, algorithm] == [prefix, u, p, v, s] + [algorithm];
    SplitJoinLast([prefix, u, p, v, s], algorithm, '_');
  }

  /** With all three ids present as strings, the id is the six pieces joined by `_`. */
  lemma PkgJobNameOfIds(prefix: string, user: string, problem: string, version: string, t: Timestamp, algorithm: string)
    ensures var ids := Dict(map["user" := Str(user), "problem" := Str(problem), "version" := Str(version)]);
            PkgJobName(prefix, ids, t, algorithm)
            == Ok(Join([prefix, Clean(user), Clean(problem), Clean(version), Stamp(t), algorithm], "_"))
  {
    var ids := Dict(map["user" := Str(user), "problem" := Str(problem), "version" := Str(version)]);
    assert RequestId(ids, "user") == Ok(user);
    assert RequestId(ids, "problem") == Ok(problem);
    assert RequestId(ids, "version") == Ok(version);
  }

  /**
   * `'_'.join(job_id.split("_")[1:])`: what the package appends to `modelDir`, the id without
   * its prefix shard.
   */
  function DropFirstShard(jobId: string): (r: string)
    ensures '_' !in jobId ==> r == ""
  {
    var shards := Split(jobId, '_');
    SplitSingle(jobId, '_');
    Join(shards[1..], "_")
  }

  /** Dropping the prefix of a named package id leaves `user_problem_version_stamp_algorithm`. */
  lemma PkgJobNameDropPrefix(prefix: string, user: string, problem: string, version: string,
                             t: Timestamp, algorithm: string)
    requires '_' !in prefix && '_' !in user && '_' !in problem && '_' !in version
    ensures var ids := Dict(map["user" := Str(user), "problem" := Str(problem), "version" := Str(version)]);
            && PkgJobName(prefix, ids, t, algorithm).Ok?
            && DropFirstShard(PkgJobName(prefix, ids, t, algorithm).value)
               == Join([Clean(user), Clean(problem), Clean(version), Stamp(t)] + Split(algorithm, '_'), "_")
  {
    var u, p, v, s := Clean(user), Clean(problem), Clean(version), Stamp(t);
    PkgJobNameOfIds(prefix, user, problem, version, t, algorithm);
    assert '_' !in s && '_' !in u && '_' !in p && '_' !in v;
    assert [prefix, u, p, v, s, algorithm] == [prefix, u, p, v, s] + [algorithm];
    DropShardOfJoin([prefix, u, p, v, s], algorithm);
    assert [prefix, u, p, v, s][1..] == [u, p, v, s];
  }

  /**
   * Dropping the first shard of `_`-free heads joined with a last piece: the other heads, then the last's shards.
   * Proof aid.
   */
  lemma DropShardOfJoin(heads: seq<string>, last: string)
    requires |heads| >= 1
    requires forall i :: 0 <= i < |heads| ==> '_' !in heads[i]
    ensures DropFirstShard(Join(heads + [last], "_")) == Join(heads[1..] + Split(last, '_'), "_")
  {
    var id := Join(heads + [last], "_");
    var tail := heads[1..] + Split(last, '_');
    SplitOfJoinLast(id, heads, last);
    DropLeadingShard(id, heads[0], tail);
  }

  /** The shards of `_`-free heads joined with a last piece: the first head, then the rest. Proof aid. */
  lemma SplitOfJoinLast(id: string, heads: seq<string>, last: string)
    requires |heads| >= 1
    requires forall i :: 0 <= i < |heads| ==> '_' !in heads[i]
    requires id == Join(heads + [last], "_")
    ensures Split(id, '_') == [heads[0]] + (heads[1..] + Split(last, '_'))
  {
    UnderscoreLiteral();
    SplitJoinLast(heads, last, '_');
    PeelFirst(heads, Split(last, '_'));
  }

  /** An id that splits into a head and the rest drops to the rest joined. Proof aid. */
  lemma DropLeadingShard(id: string, head: string, rest: seq<string>)
    requires Split(id, '_') == [head] + rest
    ensures DropFirstShard(id) == Join(rest, "_")
  {
    assert Split(id, '_')[1..] == rest;
  }

  /** The separator string of the generators is the one-character sequence. Proof aid. */
  lemma UnderscoreLiteral()
    ensures "_" == ['_']
  {
  }

  // ---------------------------------------------------------------- root ids

  /** `shards = d.split("/")` and `shards[3]`, `shards[4]`, `shards[6]` lowercased. */
  function DirShards(dir: string): (r: Result<seq<string>>)
    ensures r.Err? <==> |Split(dir, '/')| < 7
    ensures r.Err? ==> r.error == IndexError
    ensures r.Ok? ==> |r.value| == 3 && r.value[0] == Lower(Split(dir, '/')[3])
                      && r.value[1] == Lower(Split(dir, '/')[4]) && r.value[2] == Lower(Split(dir, '/')[6])
  {
    var shards := Split(dir, '/');
    if |shards| < 7 then Err(IndexError)
    else Ok([Lower(shards[3]), Lower(shards[4]), Lower(shards[6])])
  }

  /**
   * The shape shared by the root generators: when `dir` is truthy, the `lead` shards, the
   * directory's shards 3, 4 and 6, the stamp and the tail, `_`-joined; otherwise `fallback`,
   * the stamp and the tail. The shards are read before the tail is computed, so a short
   * directory's IndexError wins over a failing tail.
   */
  function StampedName(lead: seq<string>, fallback: string, dir: Value, t: Timestamp, tail: Result<string>)
    : (r: Result<string>)
    ensures r.Ok? <==> tail.Ok? && DirUsable(dir)
    ensures Truthy(dir) && !dir.Str? ==> r == Err(AttributeError)
    ensures Truthy(dir) && dir.Str? && |Split(dir.s, '/')| < 7 ==> r == Err(IndexError)
    ensures DirUsable(dir) && tail.Err? ==> r == Err(tail.error)
    ensures r.Ok? && Truthy(dir)
            ==> Split(r.value, '_') == SplitEach(lead + DirShards(dir.s).value, '_') + [Stamp(t)] + Split(tail.value, '_')
    ensures r.Ok? && !Truthy(dir) ==> Split(r.value, '_') == Split(fallback, '_') + [Stamp(t)] + Split(tail.value, '_')
  {
    if Truthy(dir) then
      var d :- StrReceiver(dir);
      var parts :- DirShards(d);
      var rest :- tail;
      StampedShards(lead + parts, t, rest);
      Ok(Join(lead + parts + [Stamp(t), rest], "_"))
    else
      var rest :- tail;
      StampedShards([fallback], t, rest);
      Ok(Join([fallback, Stamp(t), rest], "_"))
  }

  /** A falsy directory, or a string with at least seven `/` segments: one the generators can read. */
  predicate DirUsable(dir: Value)
  {
    Truthy(dir) ==> dir.Str? && |Split(dir.s, '/')| >= 7
  }

  /** Joining pieces, a stamp and a rest: the stamp, digits only, stays a single `_` shard. Proof aid. */
  lemma StampedShards(heads: seq<string>, t: Timestamp, rest: string)
    ensures Split(Join(heads + [Stamp(t), rest], "_"), '_') == SplitEach(heads, '_') + [Stamp(t)] + Split(rest, '_')
  {
    var s := Stamp(t);
    StampSeparatorFree(t);
    SplitNoSep(s, '_');
    assert "_" == ['_'];
    SplitJoinEach(heads + [s, rest], '_');
    SplitEachAppend(heads, [s, rest], '_');
    assert SplitEach([rest], '_') == Split(rest, '_') by {
      assert [rest][1..] == [];
    }
    assert SplitEach([s, rest], '_') == [s] + Split(rest, '_') by {
      assert [s, rest][1..] == [rest];
    }
  }

  /** The `_` shards of the three directory shards a root id is built from. Proof aid. */
  lemma DirShardsSplit(lead: seq<string>, dir: string)
    requires |Split(dir, '/')| >= 7
    ensures var S := Split(dir, '/');
            SplitEach(lead + DirShards(dir).value, '_')
            == SplitEach(lead, '_') + Split(Lower(S[3]), '_') + Split(Lower(S[4]), '_') + Split(Lower(S[6]), '_')
  {
    var p := DirShards(dir).value;
    SplitEachAfter(lead, p, '_');
  }

  /** `inputs[key].lower()`: KeyError when missing, AttributeError unless a string. */
  function LowerField(inputs: map<string, Value>, key: string): (r: Result<string>)
    ensures r.Ok? <==> key in inputs && inputs[key].Str?
    ensures r.Ok? ==> r.value == Lower(inputs[key].s)
    ensures r.Err? ==> r.error == (if key in inputs then AttributeError else KeyError)
    ensures r.Ok? ==> forall ch :: ch in r.value ==> !('A' <= ch <= 'Z')
  {
    var v :- Lookup(inputs, key);
    var s :- StrReceiver(v);
    var low := Lower(s);
    assert forall ch :: ch in low ==> !('A' <= ch <= 'Z') by {
      forall ch | ch in low ensures !('A' <= ch <= 'Z') {
        var i :| 0 <= i < |low| && low[i] == ch;
      }
    }
    Ok(low)
  }

  /** Lowercasing neither adds `c` nor removes it, for a `c` that is not a letter. Proof aid. */
  lemma LowerFree(s: string, c: char)
    requires !('A' <= c <= 'Z') && !('a' <= c <= 'z')
    ensures c in Lower(s) <==> c in s
  {
    var low := Lower(s);
    if c in low {
      var i :| 0 <= i < |low| && low[i] == c;
      assert s[i] == c;
    }
    if c in s {
      var i :| 0 <= i < |s| && s[i] == c;
      assert low[i] == c;
    }
  }

  /** `imageUri[0].split("/")[-1].split(":")[1].lower()`: the lowercased tag of the first image. */
  function ImageTag(imageUri: Value): (r: Result<string>)
    ensures r.Ok? ==> forall ch :: ch in r.value ==> !('A' <= ch <= 'Z')
    ensures r.Ok? ==> '/' !in r.value
    ensures imageUri.List? && imageUri.items == [] ==> r == Err(IndexError)
    ensures imageUri.List? && imageUri.items != [] && !imageUri.items[0].Str? ==> r == Err(AttributeError)
    ensures imageUri.List? && imageUri.items != [] && imageUri.items[0].Str? && ':' !in imageUri.items[0].s
            ==> r == Err(IndexError)
  {
    var first :- Index(imageUri, 0);
    var uri :- StrReceiver(first);
    var segments := Split(uri, '/');
    var last := segments[|segments| - 1];
    assert ':' !in uri ==> ':' !in last by {
      if ':' !in uri {
        PiecesWithin(uri, '/', ':');
      }
    }
    SplitSingle(last, ':');
    var tag :- At(Split(last, ':'), 1);
    SplitPiecesFree(uri, '/');
    PiecesWithin(last, ':', '/');
    LowerFree(tag, '/');
    var low := Lower(tag);
    assert forall ch :: ch in low ==> !('A' <= ch <= 'Z') by {
      forall ch | ch in low ensures !('A' <= ch <= 'Z') {
        var i :| 0 <= i < |low| && low[i] == ch;
      }
    }
    Ok(low)
  }

  /**
   * `_generate_job_name` of the root train spec handler: shards 3, 4 and 6 of `trainFiles`,
   * the stamp, the image tag and the scale tier; `j` instead of the shards when `trainFiles`
   * is falsy. Every piece is lowercased, so is the id.
   */
  function RootTrainJobName(inputs: map<string, Value>, t: Timestamp): (r: Result<string>)
    ensures r.Ok? <==> "trainFiles" in inputs && DirUsable(inputs["trainFiles"]) && RootTrainTail(inputs).Ok?
    ensures "trainFiles" !in inputs ==> r == Err(KeyError)
    ensures r.Ok? ==> forall ch :: ch in r.value ==> !('A' <= ch <= 'Z')
  {
    var dir :- Lookup(inputs, "trainFiles");
    var tail := RootTrainTail(inputs);
    var name :- StampedName([], "j", dir, t, tail);
    RootTrainNameLower(dir, t, tail);
    Ok(name)
  }

  /** The image tag and the lowercased scale tier, `_`-joined: the image is read first. */
  function RootTrainTail(inputs: map<string, Value>): (r: Result<string>)
    ensures r.Ok? <==> && "imageUri" in inputs && ImageTag(inputs["imageUri"]).Ok?
                       && "scaleTier" in inputs && inputs["scaleTier"].Str?
    ensures r.Ok? ==> Split(r.value, '_')
                      == Split(ImageTag(inputs["imageUri"]).value, '_') + Split(Lower(inputs["scaleTier"].s), '_')
    ensures r.Ok? ==> forall ch :: ch in r.value ==> !('A' <= ch <= 'Z')
  {
    var image :- Lookup(inputs, "imageUri");
    var tag :- ImageTag(image);
    var tier :- LowerField(inputs, "scaleTier");
    SplitAppend(tag, tier, '_');
    Ok(tag + "_" + tier)
  }

  lemma RootTrainNameLower(dir: Value, t: Timestamp, tail: Result<string>)
    requires tail.Ok? ==> forall ch :: ch in tail.value ==> !('A' <= ch <= 'Z')
    ensures var r := StampedName([], "j", dir, t, tail);
            r.Ok? ==> forall ch :: ch in r.value ==> !('A' <= ch <= 'Z')
  {
    var r := StampedName([], "j", dir, t, tail);
    if r.Ok? {
      var s := Stamp(t);
      var pieces := if Truthy(dir) then [] + DirShards(dir.s).value + [s, tail.value] else ["j", s, tail.value];
      assert r.value == Join(pieces, "_");
      forall k | 0 <= k < |pieces|
        ensures forall ch :: ch in pieces[k] ==> !('A' <= ch <= 'Z')
      {
        forall ch | ch in pieces[k] ensures !('A' <= ch <= 'Z') {
          var i :| 0 <= i < |pieces[k]| && pieces[k][i] == ch;
        }
      }
      forall ch | 'A' <= ch <= 'Z' ensures ch !in r.value {
        JoinFree(pieces, "_", ch);
      }
    }
  }

  /**
   * The `_` shards of a root train id: with a truthy `trainFiles`, the shards of its
   * segments 3, 4 and 6 (lowercased), the stamp, the image tag's shards and the lowercased
   * tier's shards; with a falsy one, `j`, the stamp, the tag's and the tier's shards.
   */
  lemma RootTrainJobNameShards(inputs: map<string, Value>, t: Timestamp)
    requires RootTrainJobName(inputs, t).Ok?
    ensures var id := RootTrainJobName(inputs, t).value;
            var dir := inputs["trainFiles"];
            var tail := (Split(ImageTag(inputs["imageUri"]).value, '_') + Split(Lower(inputs["scaleTier"].s), '_'));
            && (Truthy(dir) ==>
                  var S := Split(dir.s, '/');
                  Split(id, '_') == Split(Lower(S[3]), '_') + Split(Lower(S[4]), '_') + Split(Lower(S[6]), '_')
                                    + [Stamp(t)] + tail)
            && (!Truthy(dir) ==> Split(id, '_') == ["j", Stamp(t)] + tail)
  {
    LeadsFree();
    var tail := RootTrainTail(inputs);
    assert RootTrainJobName(inputs, t).value == StampedName([], "j", inputs["trainFiles"], t, tail).value;
    BareShards("j", inputs["trainFiles"], t, tail);
  }

  /** The shards of a root id without a lead shard and with a `_`-free fallback. Proof aid. */
  lemma BareShards(fallback: string, dir: Value, t: Timestamp, tail: Result<string>)
    requires '_' !in fallback
    requires StampedName([], fallback, dir, t, tail).Ok?
    ensures var id := StampedName([], fallback, dir, t, tail).value;
            && (Truthy(dir) ==>
                  var S := Split(dir.s, '/');
                  Split(id, '_') == Split(Lower(S[3]), '_') + Split(Lower(S[4]), '_') + Split(Lower(S[6]), '_')
                                    + [Stamp(t)] + Split(tail.value, '_'))
            && (!Truthy(dir) ==> Split(id, '_') == [fallback, Stamp(t)] + Split(tail.value, '_'))
  {
    if Truthy(dir) {
      var p := DirShards(dir.s).value;
      assert [] + p == p;
      SplitEachThree(p, '_');
    } else {
      SplitNoSep(fallback, '_');
    }
  }


  /** `algorithm + '_' + inputs['scaleTier'].lower()`, the tail of the preprocess and score ids. */
  function AlgorithmTail(inputs: map<string, Value>, algorithm: string): (r: Result<string>)
    ensures r.Ok? <==> "scaleTier" in inputs && inputs["scaleTier"].Str?
    ensures r.Err? ==> r.error == LowerField(inputs, "scaleTier").error
    ensures r.Ok? ==> Split(r.value, '_') == Split(algorithm, '_') + Split(Lower(inputs["scaleTier"].s), '_')
  {
    var tier :- LowerField(inputs, "scaleTier");
    SplitAppend(algorithm, tier, '_');
    Ok(algorithm + "_" + tier)
  }

  /**
   * `_generate_job_name` of the root preprocess spec handler: `preprocess` and the shards of
   * `trainFiles`, or `preprocessjob`; then the stamp, the algorithm (verbatim) and the scale tier.
   */
  function PreprocessJobName(inputs: map<string, Value>, algorithm: string, t: Timestamp): (r: Result<string>)
    ensures r.Ok? <==> && "trainFiles" in inputs && DirUsable(inputs["trainFiles"])
                       && "scaleTier" in inputs && inputs["scaleTier"].Str?
    ensures "trainFiles" !in inputs ==> r == Err(KeyError)
    ensures "trainFiles" in inputs && DirUsable(inputs["trainFiles"]) && "scaleTier" !in inputs ==> r == Err(KeyError)
    ensures r.Ok? && Truthy(inputs["trainFiles"]) ==> "preprocess" + "_" <= r.value
    ensures r.Ok? && !Truthy(inputs["trainFiles"]) ==> "preprocessjob" + "_" <= r.value
  {
    var dir :- Lookup(inputs, "trainFiles");
    var name :- StampedName(["preprocess"], "preprocessjob", dir, t, AlgorithmTail(inputs, algorithm));
    LeadPrefix("preprocess", "preprocessjob", dir, t, AlgorithmTail(inputs, algorithm));
    Ok(name)
  }

  /** A named root id starts with its lead shard and `_`, an unnamed one with the fallback and `_`. Proof aid. */
  lemma LeadPrefix(lead: string, fallback: string, dir: Value, t: Timestamp, tail: Result<string>)
    ensures var r := StampedName([lead], fallback, dir, t, tail);
            && (r.Ok? && Truthy(dir) ==> lead + "_" <= r.value)
            && (r.Ok? && !Truthy(dir) ==> fallback + "_" <= r.value)
  {
    var r := StampedName([lead], fallback, dir, t, tail);
    if r.Ok? {
      var rest := [Stamp(t), tail.value];
      var pieces := if Truthy(dir) then [lead] + DirShards(dir.s).value + rest else [fallback] + rest;
      assert r.value == Join(pieces, "_");
      assert pieces[1..] != [];
      assert r.value == pieces[0] + "_" + Join(pieces[1..], "_");
    }
  }

  /**
   * The `_` shards of a root preprocess id: `preprocess`, the shards of segments 3, 4 and 6 of
   * `trainFiles` (lowercased), the stamp, the algorithm's shards and the tier's; with a falsy
   * `trainFiles`, `preprocessjob`, the stamp, the algorithm's and the tier's shards.
   */
  lemma PreprocessJobNameShards(inputs: map<string, Value>, algorithm: string, t: Timestamp)
    requires PreprocessJobName(inputs, algorithm, t).Ok?
    ensures var id := PreprocessJobName(inputs, algorithm, t).value;
            var dir := inputs["trainFiles"];
            var tail := (Split(algorithm, '_') + Split(Lower(inputs["scaleTier"].s), '_'));
            && (Truthy(dir) ==>
                  var S := Split(dir.s, '/');
                  Split(id, '_') == ["preprocess"] + Split(Lower(S[3]), '_') + Split(Lower(S[4]), '_')
                                    + Split(Lower(S[6]), '_') + [Stamp(t)] + tail)
            && (!Truthy(dir) ==> Split(id, '_') == ["preprocessjob", Stamp(t)] + tail)
  {
    LeadsFree();
    var tail := AlgorithmTail(inputs, algorithm);
    assert PreprocessJobName(inputs, algorithm, t) == StampedName(["preprocess"], "preprocessjob", inputs["trainFiles"], t, tail);
    LeadShards("preprocess", "preprocessjob", inputs["trainFiles"], t, tail);
  }

  /** The lead and fallback shards of the root ids hold no `_`. Proof aid. */
  lemma LeadsFree()
    ensures '_' !in "j" && '_' !in "preprocess" && '_' !in "preprocessjob" && '_' !in "score" && '_' !in "scorejob"
  {
  }

  /** The lead of a named root id and its `_`, written as one literal. Proof aid. */
  lemma LeadLiterals()
    ensures "preprocess_" == "preprocess" + "_" && "preprocessjob_" == "preprocessjob" + "_"
    ensures "score_" == "score" + "_" && "scorejob_" == "scorejob" + "_"
  {
  }

  /** The shards of a root id with a single `_`-free lead shard and a `_`-free fallback. Proof aid. */
  lemma LeadShards(lead: string, fallback: string, dir: Value, t: Timestamp, tail: Result<string>)
    requires '_' !in lead && '_' !in fallback
    requires StampedName([lead], fallback, dir, t, tail).Ok?
    ensures var id := StampedName([lead], fallback, dir, t, tail).value;
            && (Truthy(dir) ==>
                  var S := Split(dir.s, '/');
                  Split(id, '_') == [lead] + Split(Lower(S[3]), '_') + Split(Lower(S[4]), '_')
                                    + Split(Lower(S[6]), '_') + [Stamp(t)] + Split(tail.value, '_'))
            && (!Truthy(dir) ==> Split(id, '_') == [fallback, Stamp(t)] + Split(tail.value, '_'))
  {
    SplitNoSep(lead, '_');
    SplitNoSep(fallback, '_');
    assert SplitEach([lead], '_') == [lead] by {
      assert [lead][1..] == [];
    }
    if Truthy(dir) {
      DirShardsSplit([lead], dir.s);
    }
  }

  /**
   * `_generate_job_name` of the root score spec handler: `score` and the shards of `scoreDir`,
   * or `scorejob`; then the stamp, the algorithm and the scale tier.
   */
  function ScoreJobName(inputs: map<string, Value>, algorithm: string, t: Timestamp): (r: Result<string>)
    ensures r.Ok? <==> && "scoreDir" in inputs && DirUsable(inputs["scoreDir"])
                       && "scaleTier" in inputs && inputs["scaleTier"].Str?
    ensures "scoreDir" !in inputs ==> r == Err(KeyError)
    ensures "scoreDir" in inputs && DirUsable(inputs["scoreDir"]) && "scaleTier" !in inputs ==> r == Err(KeyError)
    ensures r.Ok? && Truthy(inputs["scoreDir"]) ==> "score" + "_" <= r.value
    ensures r.Ok? && !Truthy(inputs["scoreDir"]) ==> "scorejob" + "_" <= r.value
  {
    var dir :- Lookup(inputs, "scoreDir");
    var name :- StampedName(["score"], "scorejob", dir, t, AlgorithmTail(inputs, algorithm));
    LeadPrefix("score", "scorejob", dir, t, AlgorithmTail(inputs, algorithm));
    Ok(name)
  }

  /**
   * The `_` shards of a root score id: `score`, the shards of segments 3, 4 and 6 of
   * `scoreDir` (lowercased), the stamp, the algorithm's shards and the tier's; with a falsy
   * `scoreDir`, `scorejob`, the stamp, the algorithm's and the tier's shards.
   */
  lemma ScoreJobNameShards(inputs: map<string, Value>, algorithm: string, t: Timestamp)
    requires ScoreJobName(inputs, algorithm, t).Ok?
    ensures var id := ScoreJobName(inputs, algorithm, t).value;
            var dir := inputs["scoreDir"];
            var tail := (Split(algorithm, '_') + Split(Lower(inputs["scaleTier"].s), '_'));
            && (Truthy(dir) ==>
                  var S := Split(dir.s, '/');
                  Split(id, '_') == ["score"] + Split(Lower(S[3]), '_') + Split(Lower(S[4]), '_')
                                    + Split(Lower(S[6]), '_') + [Stamp(t)] + tail)
            && (!Truthy(dir) ==> Split(id, '_') == ["scorejob", Stamp(t)] + tail)
  {
    LeadsFree();
    var tail := AlgorithmTail(inputs, algorithm);
    assert ScoreJobName(inputs, algorithm, t) == StampedName(["score"], "scorejob", inputs["scoreDir"], t, tail);
    LeadShards("score", "scorejob", inputs["scoreDir"], t, tail);
  }

  // ---------------------------------------------------------------- development ids

  /** `_generate_job_name_dev`: `j` followed by the stamp. */
  function DevJobNameDev(t: Timestamp): (r: string)
    ensures |r| >= 1 && r[0] == 'j' && AllDigits(r[1..])
    ensures t.Valid() && t.year >= 1000 ==> |r| == 15 && ParseNat(r[1..5]) == t.year
  {
    var r := "j" + Stamp(t);
    assert r[1..] == Stamp(t);
    assert t.Valid() && t.year >= 1000 ==> |Stamp(t)| == 14 && ParseNat(Stamp(t)[..4]) == t.year by {
      if t.Valid() && t.year >= 1000 {
        StampLayout(t);
      }
    }
    assert |r| >= 5 ==> r[1..5] == Stamp(t)[..4];
    r
  }

  /** `x.split("/")[-1].split(".")[0]`: the last path segment up to its first dot. */
  function Stem(x: string): (r: string)
    ensures '/' !in r && '.' !in r
  {
    var segments := Split(x, '/');
    SplitPiecesFree(x, '/');
    var last := segments[|segments| - 1];
    SplitPiecesFree(last, '.');
    var r := Split(last, '.')[0];
    assert r == last[..|r|];
    assert forall ch :: ch in r ==> ch in last by {
      forall ch | ch in r ensures ch in last {
        var i :| 0 <= i < |r| && r[i] == ch;
        assert last[i] == ch;
      }
    }
    r
  }

  /**
   * The three pieces the development id is made of, read from the inputs in source order:
   * the scale tier (an operand of `+`), the stem of `modelDir[0]` with `-` turned into `_`,
   * and the stem of `str(args[1])`.
   */
  function DevJobPieces(inputs: map<string, Value>): (r: Result<seq<string>>)
    ensures r.Ok? <==> && "scaleTier" in inputs && inputs["scaleTier"].Str?
                       && "modelDir" in inputs && Index(inputs["modelDir"], 0).Ok?
                       && Index(inputs["modelDir"], 0).value.Str?
                       && "args" in inputs && Index(inputs["args"], 1).Ok?
    ensures "scaleTier" !in inputs ==> r == Err(KeyError)
    ensures "scaleTier" in inputs && !inputs["scaleTier"].Str? ==> r == Err(TypeError)
    ensures r.Ok? ==> r.value == [inputs["scaleTier"].s,
                                  ReplaceChar(Stem(Index(inputs["modelDir"], 0).value.s), '-', '_'),
                                  Stem(ToStr(Index(inputs["args"], 1).value))]
    ensures r.Ok? ==> '-' !in r.value[1] && '/' !in r.value[1] && '/' !in r.value[2] && '.' !in r.value[2]
  {
    var tier :- Lookup(inputs, "scaleTier");
    var tierStr :- StrOperand(tier);
    var modelDir :- Lookup(inputs, "modelDir");
    var first :- Index(modelDir, 0);
    var dir :- StrReceiver(first);
    var args :- Lookup(inputs, "args");
    var second :- Index(args, 1);
    var stem := Stem(dir);
    var dirPiece := ReplaceChar(stem, '-', '_');
    assert '/' !in dirPiece;
    Ok([tierStr, dirPiece, Stem(ToStr(second))])
  }

  /**
   * `_generate_job_name` of the development train handler: the three pieces and the stamp,
   * `_`-joined. Its `_` shards are those of each piece, then the stamp; a `-` of the model
   * directory's stem therefore starts a new shard.
   */
  function DevJobName(inputs: map<string, Value>, t: Timestamp): (r: Result<string>)
    ensures r.Ok? <==> DevJobPieces(inputs).Ok?
    ensures r.Err? ==> r == Err(DevJobPieces(inputs).error)
    ensures r.Ok? ==> var p := DevJobPieces(inputs).value;
                      Split(r.value, '_') == Split(p[0], '_') + Split(p[1], '_') + Split(p[2], '_') + [Stamp(t)]
    ensures r.Ok? ==> Split(r.value, '_')[|Split(r.value, '_')| - 1] == Stamp(t)
  {
    var pieces :- DevJobPieces(inputs);
    var name := Join(pieces + [Stamp(t)], "_");
    DevJobNameShards(pieces, t);
    Ok(name)
  }

  /** The shards of three pieces and a stamp joined by `_`. */
  lemma DevJobNameShards(pieces: seq<string>, t: Timestamp)
    requires |pieces| == 3
    ensures Split(Join(pieces + [Stamp(t)], "_"), '_')
            == Split(pieces[0], '_') + Split(pieces[1], '_') + Split(pieces[2], '_') + [Stamp(t)]
  {
    var s := Stamp(t);
    StampSeparatorFree(t);
    SplitNoSep(s, '_');
    assert "_" == ['_'];
    SplitJoinEach(pieces + [s], '_');
    SplitEachAppend(pieces, [s], '_');
    assert SplitEach([s], '_') == [s] by {
      assert [s][1..] == [];
    }
    SplitEachThree(pieces, '_');
  }
}
