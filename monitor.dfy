/**
 * The `poll` loop of gcpaiutils/wrappers.py (and its copy in the root wrappers.py): every
 * round fetches the state of each job in turn, retrying a failed fetch up to ten times, and
 * the loop ends once every job of a round is SUCCEEDED or FAILED. The fetched response lives
 * in one variable for the whole call, so a job whose ten fetches all fail gets the state of
 * the last response fetched for any job, and raises UnboundLocalError when there is none.
 * The remote API is a script of fetch results consumed in order, read from a position;
 * sleeps are not modelled.
 */
module Monitor {
  import opened Results
  import opened Values

  /** One `request.execute()`: a response carrying the job's state, or an exception. */
  datatype Fetch = Fetched(state: string) | FetchFailed

  /** The retry budget per job and round. */
  const MaxAttempts: nat := 10

  /** What `poll` ends with: the states of the last round, an exception, or the end of the script. */
  datatype PollOutcome = Finished(status: StateMap) | Raised(error: Error) | OutOfScript

  /**
   * The retry loop of one job once it stops: the state `jobs_info` holds, the next read
   * position, and whether the script ran out first.
   */
  datatype Attempt = Attempt(info: Option<string>, pos: nat, exhausted: bool)

  /** The retry loop from attempt `counter` on, reading at `pos`, with `jobs_info` holding `info`. */
  function Retry(script: seq<Fetch>, pos: nat, counter: nat, info: Option<string>): (r: Attempt)
    requires pos <= |script| && counter <= MaxAttempts
    ensures pos <= r.pos <= |script|
    ensures r.pos - pos <= MaxAttempts - counter
    ensures counter < MaxAttempts && !r.exhausted ==> pos < r.pos
    decreases MaxAttempts - counter
  {
    if counter == MaxAttempts then Attempt(info, pos, false)
    else if pos == |script| then Attempt(info, pos, true)
    else match script[pos]
      case Fetched(s) => Attempt(Some(s), pos + 1, false)
      case FetchFailed => Retry(script, pos + 1, counter + 1, info)
  }

  /** A round in progress: the states so far, whether all were terminal, `jobs_info`, the read position. */
  datatype Round = Swept(status: StateMap, allTerminal: bool, info: Option<string>, pos: nat)
                 | Stopped(outcome: PollOutcome)

  /** The `for job in jobs` loop of one round, from job `j` on. */
  function Sweep(jobs: seq<string>, j: nat, script: seq<Fetch>, pos: nat, info: Option<string>, status: StateMap,
                 allTerminal: bool): (r: Round)
    requires j <= |jobs| && pos <= |script| && status.Valid()
    ensures r.Swept? ==> r.status.Valid() && pos <= r.pos <= |script|
    ensures r.Swept? && j < |jobs| ==> pos < r.pos
    ensures j == |jobs| ==> r == Swept(status, allTerminal, info, pos)
    ensures r.Stopped? ==> r.outcome == OutOfScript || r.outcome == Raised(UnboundLocalError)
    decreases |jobs| - j
  {
    if j == |jobs| then Swept(status, allTerminal, info, pos)
    else
      var a := Retry(script, pos, 0, info);
      if a.exhausted then Stopped(OutOfScript)
      else if a.info.None? then Stopped(Raised(UnboundLocalError))
      else Sweep(jobs, j + 1, script, a.pos, a.info, status.Put(jobs[j], a.info.value),
                 allTerminal && Terminal(a.info.value))
  }

  /** The `while still_running` loop, from a round's start at `pos` with `jobs_info` holding `info`. */
  function PollRounds(jobs: seq<string>, script: seq<Fetch>, pos: nat, info: Option<string>): PollOutcome
    requires pos <= |script|
    decreases |script| - pos
  {
    match Sweep(jobs, 0, script, pos, info, EmptyStates, true)
    case Stopped(outcome) => outcome
    case Swept(status, allTerminal, info', next) =>
      if allTerminal then Finished(status) else PollRounds(jobs, script, next, info')
  }

  /** `poll(...)` on a fresh call: no response fetched yet. */
  function PollSpec(jobs: seq<string>, script: seq<Fetch>): PollOutcome
  {
    PollRounds(jobs, script, 0, None)
  }

  // ---------------------------------------------------------------- what poll promises

  /** The jobs from position `j` on, as a set. */
  function JobsFrom(jobs: seq<string>, j: nat): set<string>
  {
    set i | j <= i < |jobs| :: jobs[i]
  }

  /** The jobs from position `j` on: the one at `j`, then those after it. Proof aid. */
  lemma JobsFromSplit(jobs: seq<string>, j: nat)
    requires j < |jobs|
    ensures JobsFrom(jobs, j) == {jobs[j]} + JobsFrom(jobs, j + 1)
  {
    forall x | x in JobsFrom(jobs, j)
      ensures x in {jobs[j]} + JobsFrom(jobs, j + 1)
    {
      var i :| j <= i < |jobs| && jobs[i] == x;
      if i > j {
        assert x in JobsFrom(jobs, j + 1);
      }
    }
  }

  /** A round's states hold exactly the keys it started with and the jobs it fetched. */
  lemma {:induction false} SweepKeys(jobs: seq<string>, j: nat, script: seq<Fetch>, pos: nat, info: Option<string>,
                                     status: StateMap, allTerminal: bool)
    requires j <= |jobs| && pos <= |script| && status.Valid()
    requires Sweep(jobs, j, script, pos, info, status, allTerminal).Swept?
    ensures Sweep(jobs, j, script, pos, info, status, allTerminal).status.states.Keys
            == status.states.Keys + JobsFrom(jobs, j)
    decreases |jobs| - j
  {
    if j < |jobs| {
      var a := Retry(script, pos, 0, info);
      SweepKeys(jobs, j + 1, script, a.pos, a.info, status.Put(jobs[j], a.info.value), allTerminal && Terminal(a.info.value));
      JobsFromSplit(jobs, j);
    } else {
      assert JobsFrom(jobs, j) == {};
    }
  }

  /**
   * When a round ends with every state terminal, every state it holds is terminal or was
   * already there when the round started.
   */
  lemma {:induction false} SweepTerminal(jobs: seq<string>, j: nat, script: seq<Fetch>, pos: nat, info: Option<string>,
                                         status: StateMap, allTerminal: bool)
    requires j <= |jobs| && pos <= |script| && status.Valid()
    requires Sweep(jobs, j, script, pos, info, status, allTerminal).Swept?
    requires Sweep(jobs, j, script, pos, info, status, allTerminal).allTerminal
    ensures allTerminal
    ensures var r := Sweep(jobs, j, script, pos, info, status, allTerminal).status;
            forall k :: k in r.states ==> Terminal(r.states[k]) || (k in status.states && r.states[k] == status.states[k])
    decreases |jobs| - j
  {
    if j < |jobs| {
      var a := Retry(script, pos, 0, info);
      SweepTerminal(jobs, j + 1, script, a.pos, a.info, status.Put(jobs[j], a.info.value), allTerminal && Terminal(a.info.value));
    }
  }

  /**
   * A poll that finishes reports one state per job (a job listed twice appears once) and
   * every state it reports is SUCCEEDED or FAILED.
   */
  lemma {:induction false} PollFinished(jobs: seq<string>, script: seq<Fetch>, pos: nat, info: Option<string>)
    requires pos <= |script|
    requires PollRounds(jobs, script, pos, info).Finished?
    ensures var status := PollRounds(jobs, script, pos, info).status;
            && status.Valid()
            && (forall k :: k in status.states <==> k in jobs)
            && forall k :: k in status.states ==> Terminal(status.states[k])
    decreases |script| - pos
  {
    var round := Sweep(jobs, 0, script, pos, info, EmptyStates, true);
    if round.allTerminal {
      SweepKeys(jobs, 0, script, pos, info, EmptyStates, true);
      assert forall k :: k in JobsFrom(jobs, 0) <==> k in jobs by {
        forall k ensures k in JobsFrom(jobs, 0) <==> k in jobs {
          if k in jobs {
            var i :| 0 <= i < |jobs| && jobs[i] == k;
          }
        }
      }
      SweepTerminal(jobs, 0, script, pos, info, EmptyStates, true);
    } else {
      PollFinished(jobs, script, round.pos, round.info);
    }
  }

  /** Polling no job returns an empty status at once. */
  lemma PollNoJobs(script: seq<Fetch>)
    ensures PollSpec([], script) == Finished(EmptyStates)
  {
  }

  /** Ten failed fetches in a row end the retry loop with `jobs_info` as it was. */
  lemma {:induction false} RetryAllFailed(script: seq<Fetch>, pos: nat, counter: nat, info: Option<string>)
    requires counter <= MaxAttempts && pos + (MaxAttempts - counter) <= |script|
    requires forall i :: pos <= i < pos + (MaxAttempts - counter) ==> script[i] == FetchFailed
    ensures Retry(script, pos, counter, info) == Attempt(info, pos + (MaxAttempts - counter), false)
    decreases MaxAttempts - counter
  {
    if counter < MaxAttempts {
      RetryAllFailed(script, pos + 1, counter + 1, info);
    }
  }

  /**
   * A job whose ten fetches all fail is recorded with the state of the last response fetched
   * before it, for whichever job that was.
   */
  lemma SweepStaleState(jobs: seq<string>, j: nat, script: seq<Fetch>, pos: nat, last: string,
                        status: StateMap, allTerminal: bool)
    requires j < |jobs| && pos + MaxAttempts <= |script| && status.Valid()
    requires forall i :: pos <= i < pos + MaxAttempts ==> script[i] == FetchFailed
    ensures Sweep(jobs, j, script, pos, Some(last), status, allTerminal)
            == Sweep(jobs, j + 1, script, pos + MaxAttempts, Some(last), status.Put(jobs[j], last),
                     allTerminal && Terminal(last))
  {
    RetryAllFailed(script, pos, 0, Some(last));
  }

  /** When the very first job's ten fetches all fail, `poll` raises UnboundLocalError. */
  lemma PollUnbound(jobs: seq<string>, script: seq<Fetch>)
    requires |jobs| > 0 && MaxAttempts <= |script|
    requires forall i :: 0 <= i < MaxAttempts ==> script[i] == FetchFailed
    ensures PollSpec(jobs, script) == Raised(UnboundLocalError)
  {
    RetryAllFailed(script, 0, 0, None);
  }

  /** A job's first successful fetch ends its retries and is what the round records. */
  lemma SweepFetched(jobs: seq<string>, j: nat, script: seq<Fetch>, pos: nat, info: Option<string>,
                     status: StateMap, allTerminal: bool)
    requires j < |jobs| && pos < |script| && status.Valid() && script[pos].Fetched?
    ensures Sweep(jobs, j, script, pos, info, status, allTerminal)
            == Sweep(jobs, j + 1, script, pos + 1, Some(script[pos].state), status.Put(jobs[j], script[pos].state),
                     allTerminal && Terminal(script[pos].state))
  {
  }

  /** The retry loop of one job, reading the script from `pos`. */
  method FetchState(script: seq<Fetch>, pos: nat, info: Option<string>) returns (a: Attempt)
    requires pos <= |script|
    ensures a == Retry(script, pos, 0, info)
  {
    var current, next := info, pos;
    var counter := 0;
    var done := false;
    while counter < MaxAttempts && !done
      invariant 0 <= counter <= MaxAttempts && pos <= next <= |script|
      invariant done ==> Retry(script, pos, 0, info) == Attempt(current, next, false)
      invariant !done ==> Retry(script, pos, 0, info) == Retry(script, next, counter, current)
      decreases MaxAttempts - counter, if done then 0 else 1
    {
      if next == |script| {
        return Attempt(current, next, true);
      }
      var fetched := script[next];
      next := next + 1;
      if fetched.Fetched? {
        current := Some(fetched.state);
        done := true;
      } else {
        counter := counter + 1;
      }
    }
    return Attempt(current, next, false);
  }

  /** One round of the poll loop, reading the script from `pos`. */
  method SweepRound(jobs: seq<string>, script: seq<Fetch>, pos: nat, info: Option<string>) returns (r: Round)
    requires pos <= |script|
    ensures r == Sweep(jobs, 0, script, pos, info, EmptyStates, true)
  {
    var status := EmptyStates;
    var states := true;
    var current, next := info, pos;
    var j := 0;
    while j < |jobs|
      invariant 0 <= j <= |jobs| && pos <= next <= |script|
      invariant status.Valid()
      invariant Sweep(jobs, 0, script, pos, info, EmptyStates, true) == Sweep(jobs, j, script, next, current, status, states)
    {
      var a := FetchState(script, next, current);
      if a.exhausted {
        return Stopped(OutOfScript);
      }
      if a.info.None? {
        return Stopped(Raised(UnboundLocalError));
      }
      current, next := a.info, a.pos;
      status := status.Put(jobs[j], current.value);
      states := states && Terminal(current.value);
      j := j + 1;
    }
    return Swept(status, states, current, next);
  }

  /** The poll loop, consuming the script of fetch results in order. */
  method Poll(jobs: seq<string>, script: seq<Fetch>) returns (r: PollOutcome)
    ensures r == PollSpec(jobs, script)
  {
    var pos := 0;
    var info: Option<string> := None;
    while true
      invariant 0 <= pos <= |script|
      invariant PollSpec(jobs, script) == PollRounds(jobs, script, pos, info)
      decreases |script| - pos
    {
      var round := SweepRound(jobs, script, pos, info);
      if round.Stopped? {
        return round.outcome;
      }
      if round.allTerminal {
        return Finished(round.status);
      }
      pos, info := round.pos, round.info;
    }
  }
}
