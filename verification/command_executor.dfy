/**
 * The command executor of src/aws_adfs_gui/command_executor.py: the split
 * of the requested profiles into a dev batch and the rest, the fail-fast
 * rule that skips the rest when a dev profile fails, the mapping of a
 * process outcome to a `CommandResult`, and the bounded history of past
 * commands. The profile lookup, the process runs, the command id and the
 * start time are parameters; results are taken in request order.
 */
module CommandExecution {
  import opened Wrappers
  import opened Text
  import opened Models

  /** What was observed of one `create_subprocess_shell` run. */
  datatype ProcessOutcome =
    | Exited(returnCode: int, stdout: string, stderr: string)
    | TimedOut
    | Raised(error: string)

  /** One run and its wall-clock duration in seconds. */
  datatype Execution = Execution(outcome: ProcessOutcome, duration: real)

  /** Python's `_execute_single_command`, from the run's outcome on: success exactly on return code 0, and an error text on every failure. */
  function SingleResult(profile: string, timeout: int, run: Execution): (r: CommandResult)
    ensures r.profile == profile && r.duration == run.duration
    ensures r.success <==> run.outcome.Exited? && run.outcome.returnCode == 0
    ensures r.success <==> r.error.None?
    ensures run.outcome.Exited? ==> r.output == run.outcome.stdout
    ensures run.outcome.Exited? && run.outcome.returnCode != 0 ==> r.error == Some(run.outcome.stderr)
    ensures run.outcome.Raised? ==> r.output == "" && r.error == Some(run.outcome.error)
    ensures run.outcome.TimedOut? ==>
              r.output == "" && r.error == Some("Command timed out after " + IntToString(timeout) + " seconds")
  {
    match run.outcome
    case Exited(code, stdout, stderr) =>
      if code == 0 then CommandResult(profile, true, stdout, None, run.duration)
      else CommandResult(profile, false, stdout, Some(stderr), run.duration)
    case TimedOut =>
      CommandResult(profile, false, error := Some("Command timed out after " + IntToString(timeout) + " seconds"),
                    duration := run.duration)
    case Raised(error) =>
      CommandResult(profile, false, error := Some(error), duration := run.duration)
  }

  /** A requested name belongs to the dev batch when the lookup finds a profile whose group value is "dev". */
  predicate IsDev(lookup: string -> Option<AWSProfile>, name: string) {
    lookup(name).Some? && lookup(name).value.group.Value() == "dev"
  }

  /** The names whose `IsDev` is `dev`, in request order. */
  function Batch(names: seq<string>, lookup: string -> Option<AWSProfile>, dev: bool): (batch: seq<string>)
    ensures forall k :: 0 <= k < |batch| ==> IsDev(lookup, batch[k]) == dev
    ensures forall x :: x in batch <==> x in names && IsDev(lookup, x) == dev
  {
    if names == [] then []
    else
      var front := Batch(names[..|names| - 1], lookup, dev);
      if IsDev(lookup, names[|names| - 1]) == dev then front + [names[|names| - 1]] else front
  }

  /** The dev batch. */
  function DevProfiles(names: seq<string>, lookup: string -> Option<AWSProfile>): (dev: seq<string>)
    ensures forall x :: x in dev <==> x in names && IsDev(lookup, x)
  {
    Batch(names, lookup, true)
  }

  /** The other batch: every name that is not dev, unknown names included. */
  function OtherProfiles(names: seq<string>, lookup: string -> Option<AWSProfile>): (other: seq<string>)
    ensures forall x :: x in other <==> x in names && !IsDev(lookup, x)
  {
    Batch(names, lookup, false)
  }

  /** Each batch keeps request order: the batch of a concatenation is the concatenation of the batches. */
  lemma {:induction false} BatchAppend(a: seq<string>, b: seq<string>, lookup: string -> Option<AWSProfile>, dev: bool)
    ensures Batch(a + b, lookup, dev) == Batch(a, lookup, dev) + Batch(b, lookup, dev)
    decreases |b|
  {
    if b == [] {
      assert a + b == a;
    } else {
      var front := b[..|b| - 1];
      assert (a + b)[..|a + b| - 1] == a + front;
      BatchAppend(a, front, lookup, dev);
    }
  }

  /** Together the two batches hold every requested name as often as it was requested. */
  lemma {:induction false} PartitionSpec(names: seq<string>, lookup: string -> Option<AWSProfile>)
    ensures multiset(DevProfiles(names, lookup)) + multiset(OtherProfiles(names, lookup)) == multiset(names)
    ensures |DevProfiles(names, lookup)| + |OtherProfiles(names, lookup)| == |names|
  {
    if names != [] {
      var front, last := names[..|names| - 1], names[|names| - 1];
      PartitionSpec(front, lookup);
      assert names == front + [last];
      if IsDev(lookup, last) {
        assert DevProfiles(names, lookup) == DevProfiles(front, lookup) + [last];
        assert OtherProfiles(names, lookup) == OtherProfiles(front, lookup);
      } else {
        assert DevProfiles(names, lookup) == DevProfiles(front, lookup);
        assert OtherProfiles(names, lookup) == OtherProfiles(front, lookup) + [last];
      }
    }
  }

  /** Runs each profile of a batch, results in batch order. */
  function Results(profiles: seq<string>, timeout: int, run: string -> Execution): (rs: seq<CommandResult>)
    ensures |rs| == |profiles|
    ensures forall k :: 0 <= k < |rs| ==> rs[k] == SingleResult(profiles[k], timeout, run(profiles[k]))
  {
    seq(|profiles|, k requires 0 <= k < |profiles| => SingleResult(profiles[k], timeout, run(profiles[k])))
  }

  /** The profile of each result, in order. */
  function ProfilesOf(rs: seq<CommandResult>): (ps: seq<string>)
    ensures |ps| == |rs| && forall k :: 0 <= k < |rs| ==> ps[k] == rs[k].profile
  {
    seq(|rs|, k requires 0 <= k < |rs| => rs[k].profile)
  }

  function SuccessCount(rs: seq<CommandResult>): (n: nat)
    ensures n <= |rs|
    ensures n == |rs| <==> forall k :: 0 <= k < |rs| ==> rs[k].success
  {
    if rs == [] then 0 else SuccessCount(rs[..|rs| - 1]) + (if rs[|rs| - 1].success then 1 else 0)
  }

  lemma {:induction false} SuccessCountAppend(a: seq<CommandResult>, b: seq<CommandResult>)
    ensures SuccessCount(a + b) == SuccessCount(a) + SuccessCount(b)
    decreases |b|
  {
    if b == [] {
      assert a + b == a;
    } else {
      assert (a + b)[..|a + b| - 1] == a + b[..|b| - 1];
      SuccessCountAppend(a, b[..|b| - 1]);
    }
  }

  /** Some result of the batch failed. */
  predicate AnyFailed(rs: seq<CommandResult>) {
    exists k :: 0 <= k < |rs| && !rs[k].success
  }

  /** What one command request produces: the results yielded, in order, and the history entry recorded. */
  datatype Dispatch = Dispatch(results: seq<CommandResult>, entry: CommandHistory)

  /** The history entry of a request: its id, command, start time and profiles, with the success and total counts. */
  function Entry(request: CommandRequest, commandId: string, startTime: string, successCount: int): (e: CommandHistory)
    ensures e.id == commandId && e.command == request.command && e.timestamp == startTime
    ensures e.profiles == request.profiles && e.successCount == successCount && e.totalCount == |request.profiles|
  {
    CommandHistory(commandId, request.command, startTime, request.profiles, successCount, |request.profiles|)
  }

  /**
   * `execute_command` as evidently intended: the dev batch runs first; if any
   * dev result failed, nothing else runs and the entry counts the dev
   * successes; otherwise the other batch runs and the entry counts all
   * successes.
   */
  function Plan(request: CommandRequest, lookup: string -> Option<AWSProfile>, run: string -> Execution,
                commandId: string, startTime: string): (d: Dispatch)
    ensures d.entry.id == commandId && d.entry.command == request.command && d.entry.timestamp == startTime
    ensures d.entry.profiles == request.profiles && d.entry.totalCount == |request.profiles|
    ensures 0 <= d.entry.successCount <= |d.results| <= |request.profiles|
  {
    var devResults := Results(DevProfiles(request.profiles, lookup), request.timeout, run);
    PartitionSpec(request.profiles, lookup);
    if AnyFailed(devResults) then
      Dispatch(devResults, Entry(request, commandId, startTime, SuccessCount(devResults)))
    else
      var results := devResults + Results(OtherProfiles(request.profiles, lookup), request.timeout, run);
      Dispatch(results, Entry(request, commandId, startTime, SuccessCount(results)))
  }

  /** Fail-fast: when a dev result fails, only dev profiles run and the entry counts the successful dev results. */
  lemma PlanFailFast(request: CommandRequest, lookup: string -> Option<AWSProfile>, run: string -> Execution,
                     commandId: string, startTime: string)
    requires AnyFailed(Results(DevProfiles(request.profiles, lookup), request.timeout, run))
    ensures var d := Plan(request, lookup, run, commandId, startTime);
      && (forall k :: 0 <= k < |d.results| ==> IsDev(lookup, d.results[k].profile))
      && d.entry.successCount < |DevProfiles(request.profiles, lookup)|
      && d.entry.successCount == SuccessCount(Results(DevProfiles(request.profiles, lookup), request.timeout, run))
  {
  }

  /**
   * Without a dev failure every requested profile runs exactly once per
   * request, dev batch first, and the entry counts every successful result.
   */
  lemma PlanRunsEveryProfile(request: CommandRequest, lookup: string -> Option<AWSProfile>, run: string -> Execution,
                             commandId: string, startTime: string)
    requires !AnyFailed(Results(DevProfiles(request.profiles, lookup), request.timeout, run))
    ensures var d := Plan(request, lookup, run, commandId, startTime);
      && |d.results| == |request.profiles|
      && multiset(ProfilesOf(d.results)) == multiset(request.profiles)
      && d.entry.successCount == SuccessCount(d.results)
      && (d.entry.successCount == |request.profiles| <==> forall k :: 0 <= k < |d.results| ==> d.results[k].success)
  {
    var dev, other := DevProfiles(request.profiles, lookup), OtherProfiles(request.profiles, lookup);
    var devResults, otherResults := Results(dev, request.timeout, run), Results(other, request.timeout, run);
    PartitionSpec(request.profiles, lookup);
    var d := Plan(request, lookup, run, commandId, startTime);
    assert d.results == devResults + otherResults;
    ProfilesOfAppend(devResults, otherResults);
    ProfilesOfResults(dev, request.timeout, run);
    ProfilesOfResults(other, request.timeout, run);
    assert multiset(ProfilesOf(d.results)) == multiset(dev) + multiset(other);
  }

  /** Running a batch gives one result per profile, in the batch's order. */
  lemma ProfilesOfResults(profiles: seq<string>, timeout: int, run: string -> Execution)
    ensures ProfilesOf(Results(profiles, timeout, run)) == profiles
  {
  }

  lemma ProfilesOfAppend(a: seq<CommandResult>, b: seq<CommandResult>)
    ensures ProfilesOf(a + b) == ProfilesOf(a) + ProfilesOf(b)
  {
  }

  /** Python's `_add_to_history`: append, then drop the oldest entry when over the bound. */
  function HistoryAppend(history: seq<CommandHistory>, entry: CommandHistory, maxHistory: nat): (h: seq<CommandHistory>)
    ensures |history| <= maxHistory ==> |h| <= maxHistory
    ensures h != [] ==> h[|h| - 1] == entry
    ensures maxHistory >= 1 ==> h != []
    ensures |history| < maxHistory ==> h == history + [entry]
    ensures exists k :: 0 <= k <= |history| + 1 && h == (history + [entry])[k..]
  {
    var appended := history + [entry];
    if |appended| > maxHistory then appended[1..]
    else
      // the suffix from k = 0
      assert (history + [entry])[0..] == appended;
      appended
  }

  /** The last `n` entries of `s` (all of `s` when it is shorter). */
  function LastN<T>(s: seq<T>, n: nat): (r: seq<T>)
    ensures |r| == if |s| < n then |s| else n
    ensures r == s[|s| - |r|..]
  {
    if |s| <= n then s else s[|s| - n..]
  }

  /** The history after appending several entries one by one. */
  function AppendAll(history: seq<CommandHistory>, entries: seq<CommandHistory>, maxHistory: nat): seq<CommandHistory>
    decreases |entries|
  {
    if entries == [] then history
    else AppendAll(HistoryAppend(history, entries[0], maxHistory), entries[1..], maxHistory)
  }

  /** The history is a sliding window: it always holds the last `maxHistory` entries ever added, oldest first. */
  lemma {:induction false} HistoryIsWindow(history: seq<CommandHistory>, entries: seq<CommandHistory>, maxHistory: nat)
    requires |history| <= maxHistory
    ensures AppendAll(history, entries, maxHistory) == LastN(history + entries, maxHistory)
    decreases |entries|
  {
    if entries == [] {
      assert history + entries == history;
    } else {
      var next := HistoryAppend(history, entries[0], maxHistory);
      assert [entries[0]] + entries[1..] == entries;
      HistoryIsWindow(next, entries[1..], maxHistory);
      HistoryAppendWindow(history, entries[0], entries[1..], maxHistory);
    }
  }

  /** One append keeps the window of everything added so far. */
  lemma HistoryAppendWindow(history: seq<CommandHistory>, entry: CommandHistory, rest: seq<CommandHistory>,
                            maxHistory: nat)
    requires |history| <= maxHistory
    ensures LastN(HistoryAppend(history, entry, maxHistory) + rest, maxHistory)
         == LastN(history + ([entry] + rest), maxHistory)
  {
    var appended := history + [entry];
    var all := history + ([entry] + rest);
    assert appended + rest == all;
    if |appended| > maxHistory {
      assert HistoryAppend(history, entry, maxHistory) + rest == all[1..];
      LastNDropFront(all, maxHistory);
    }
  }

  /** Dropping the first element of a sequence longer than the window leaves the window unchanged. */
  lemma LastNDropFront<T>(s: seq<T>, n: nat)
    requires |s| > n
    ensures LastN(s[1..], n) == LastN(s, n)
  {
    assert s[1..][|s| - 1 - n..] == s[|s| - n..];
  }

  /** The `CommandExecutor` class: its one piece of state is the bounded history. */
  class CommandExecutor {
    var commandHistory: seq<CommandHistory>
    var maxHistory: nat

    ghost predicate Valid()
      reads this
    {
      |commandHistory| <= maxHistory
    }

    constructor ()
      ensures commandHistory == [] && maxHistory == 100
      ensures Valid()
    {
      commandHistory := [];
      maxHistory := 100;
    }

    method AddToHistory(entry: CommandHistory)
      requires Valid()
      modifies this`commandHistory
      ensures Valid()
      ensures commandHistory == HistoryAppend(old(commandHistory), entry, maxHistory)
    {
      commandHistory := commandHistory + [entry];
      if |commandHistory| > maxHistory {
        commandHistory := commandHistory[1..];
      }
    }

    /** A copy of the history: sequences are values, so the caller cannot change `commandHistory` through it. */
    method GetCommandHistory() returns (history: seq<CommandHistory>)
      ensures history == commandHistory
    {
      history := commandHistory;
    }

    method ClearHistory()
      modifies this`commandHistory
      ensures commandHistory == []
      ensures Valid()
    {
      commandHistory := [];
    }

    /** Runs each profile of a batch in order. */
    static method RunBatch(profiles: seq<string>, timeout: int, run: string -> Execution)
      returns (results: seq<CommandResult>)
      ensures results == Results(profiles, timeout, run)
    {
      results := [];
      var i := 0;
      while i < |profiles|
        invariant 0 <= i <= |profiles|
        invariant results == Results(profiles[..i], timeout, run)
      {
        results := results + [SingleResult(profiles[i], timeout, run(profiles[i]))];
        i := i + 1;
      }
      assert profiles[..i] == profiles;
    }

    /** The loop that splits the requested names into the dev batch and the rest. */
    static method Partition(names: seq<string>, lookup: string -> Option<AWSProfile>)
      returns (devProfiles: seq<string>, otherProfiles: seq<string>)
      ensures devProfiles == DevProfiles(names, lookup)
      ensures otherProfiles == OtherProfiles(names, lookup)
    {
      devProfiles, otherProfiles := [], [];
      var i := 0;
      while i < |names|
        invariant 0 <= i <= |names|
        invariant devProfiles == DevProfiles(names[..i], lookup)
        invariant otherProfiles == OtherProfiles(names[..i], lookup)
      {
        assert names[..i + 1][..i] == names[..i];
        var name := names[i];
        var profile := lookup(name);
        if profile.Some? && profile.value.group.Value() == "dev" {
          devProfiles := devProfiles + [name];
        } else {
          otherProfiles := otherProfiles + [name];
        }
        i := i + 1;
      }
      assert names[..i] == names;
    }

    /** `execute_command` with line 85 corrected: the history entry counts the results this call collected. */
    method ExecuteCommand(request: CommandRequest, lookup: string -> Option<AWSProfile>, run: string -> Execution,
                          commandId: string, startTime: string)
      returns (results: seq<CommandResult>)
      requires Valid()
      modifies this`commandHistory
      ensures Valid()
      ensures results == Plan(request, lookup, run, commandId, startTime).results
      ensures commandHistory
           == HistoryAppend(old(commandHistory), Plan(request, lookup, run, commandId, startTime).entry, maxHistory)
    {
      var devProfiles, otherProfiles := Partition(request.profiles, lookup);
      var devResults := RunBatch(devProfiles, request.timeout, run);
      var devSuccesses := SuccessCount(devResults);
      ghost var d := Plan(request, lookup, run, commandId, startTime);
      var entry;
      if devSuccesses < |devResults| {
        assert AnyFailed(devResults);
        results, entry := devResults, Entry(request, commandId, startTime, devSuccesses);
      } else {
        assert !AnyFailed(devResults);
        var otherResults := RunBatch(otherProfiles, request.timeout, run);
        results := devResults + otherResults;
        SuccessCountAppend(devResults, otherResults);
        entry := Entry(request, commandId, startTime, devSuccesses + SuccessCount(otherResults));
      }
      assert d == Dispatch(results, entry);
      AddToHistory(entry);
    }
  }

  /** What the recursive `execute_command` of line 85 produces: the results it yields and the entries it records. */
  datatype AsWrittenRun = AsWrittenRun(yielded: seq<CommandResult>, collected: seq<CommandResult>, recorded: seq<CommandHistory>)

  /**
   * `execute_command` as written, with `fuel` bounding the depth of the
   * recursive call on line 85; `None` when the recursion does not bottom
   * out within `fuel` calls. Each call draws its own `uuid4()` and `now()`
   * and runs its own subprocesses, so the call at recursion depth `depth`
   * takes `runs(depth)`, `ids(depth)` and `times(depth)`.
   */
  function ExecuteAsWritten(request: CommandRequest, lookup: string -> Option<AWSProfile>, runs: nat -> (string -> Execution),
                            ids: nat -> string, times: nat -> string, depth: nat, fuel: nat): (r: Option<AsWrittenRun>)
    ensures r.Some? ==> Results(DevProfiles(request.profiles, lookup), request.timeout, runs(depth)) <= r.value.yielded
    ensures r.Some? ==> Results(DevProfiles(request.profiles, lookup), request.timeout, runs(depth)) <= r.value.collected
    ensures r.Some? ==> && 1 <= |r.value.recorded| <= fuel + 1
                        && r.value.recorded[|r.value.recorded| - 1]
                           == Entry(request, ids(depth), times(depth), SuccessCount(r.value.collected))
    decreases fuel
  {
    var devResults := Results(DevProfiles(request.profiles, lookup), request.timeout, runs(depth));
    if AnyFailed(devResults) then
      Some(AsWrittenRun(devResults, devResults, [Entry(request, ids(depth), times(depth), SuccessCount(devResults))]))
    else if fuel == 0 then None
    else
      match ExecuteAsWritten(request, lookup, runs, ids, times, depth + 1, fuel - 1)
      case None => None
      case Some(inner) =>
        var otherResults := Results(OtherProfiles(request.profiles, lookup), request.timeout, runs(depth));
        var all := devResults + inner.yielded;
        Some(AsWrittenRun(devResults + otherResults, all,
                          inner.recorded + [Entry(request, ids(depth), times(depth), SuccessCount(all))]))
  }

  /** The dev batch of one call runs without a failure. */
  predicate DevBatchPasses(request: CommandRequest, lookup: string -> Option<AWSProfile>, run: string -> Execution) {
    !AnyFailed(Results(DevProfiles(request.profiles, lookup), request.timeout, run))
  }

  /**
   * As written, the recursion of line 85 only bottoms out at a call whose
   * dev batch fails: while the dev batches of the calls at depths `depth`
   * to `depth + fuel` all pass, `fuel` more calls are not enough and nothing
   * is recorded.
   */
  lemma {:induction false} AsWrittenNeverFinishes(request: CommandRequest, lookup: string -> Option<AWSProfile>,
                                                  runs: nat -> (string -> Execution), ids: nat -> string,
                                                  times: nat -> string, depth: nat, fuel: nat)
    requires forall k: nat :: depth <= k <= depth + fuel ==> DevBatchPasses(request, lookup, runs(k))
    ensures ExecuteAsWritten(request, lookup, runs, ids, times, depth, fuel).None?
    decreases fuel
  {
    assert DevBatchPasses(request, lookup, runs(depth));
    if fuel > 0 {
      AsWrittenNeverFinishes(request, lookup, runs, ids, times, depth + 1, fuel - 1);
      assert ExecuteAsWritten(request, lookup, runs, ids, times, depth + 1, fuel - 1) == None;
    }
  }

  /**
   * A request naming no dev profile has an empty dev batch at every depth,
   * so as written it never finishes, whatever its calls run, and never
   * records a history entry.
   */
  lemma {:induction false} AsWrittenWithoutDevNeverFinishes(request: CommandRequest, lookup: string -> Option<AWSProfile>,
                                                            runs: nat -> (string -> Execution), ids: nat -> string,
                                                            times: nat -> string, depth: nat, fuel: nat)
    requires DevProfiles(request.profiles, lookup) == []
    ensures ExecuteAsWritten(request, lookup, runs, ids, times, depth, fuel).None?
  {
    forall k: nat | depth <= k <= depth + fuel
      ensures DevBatchPasses(request, lookup, runs(k))
    {
      assert Results([], request.timeout, runs(k)) == [];
    }
    AsWrittenNeverFinishes(request, lookup, runs, ids, times, depth, fuel);
  }

  /** The corrected `Plan` agrees with the code as written wherever the latter finishes: on the fail-fast path. */
  lemma AsWrittenAgreesOnFailFast(request: CommandRequest, lookup: string -> Option<AWSProfile>,
                                  runs: nat -> (string -> Execution), ids: nat -> string,
                                  times: nat -> string, depth: nat, fuel: nat)
    requires !DevBatchPasses(request, lookup, runs(depth))
    ensures var w := ExecuteAsWritten(request, lookup, runs, ids, times, depth, fuel);
            var d := Plan(request, lookup, runs(depth), ids(depth), times(depth));
            w == Some(AsWrittenRun(d.results, d.results, [d.entry]))
  {
  }
}
