/**
 * The credentials manager and command builder of
 * src/aws_adfs_gui/aws_credentials.py: the five credential statuses and
 * their display settings, the classification of one profile from its
 * presence in the AWS configuration files and the outcome of the STS probe,
 * the map of status records and its summary, and the argument vectors of
 * `aws-adfs login` and of the AWS CLI. Status records are Python dicts, so
 * they are maps from key to `Value`; the INI files are lists of section
 * names; the probe's outcome and the current time are parameters.
 */
module AwsCredentials {
  import opened Wrappers
  import opened Text
  import opened Models

  datatype CredentialStatus = Valid | Expired | Invalid | Missing | Unknown {

    /** The string the status is stored as. */
    function Value(): string {
      match this
      case Valid => "valid"
      case Expired => "expired"
      case Invalid => "invalid"
      case Missing => "missing"
      case Unknown => "unknown"
    }
  }

  /** One entry of `STATUS_CONFIG`. */
  datatype Display = Display(labelText: string, color: string, icon: string, priority: int)

  /** `STATUS_CONFIG`: the display settings of each status; priorities rank the statuses 1 to 5, valid first. */
  function StatusConfig(status: CredentialStatus): (d: Display)
    ensures 1 <= d.priority <= 5
    ensures d.priority == 1 <==> status == Valid
    ensures d.labelText != [] && d.color != [] && d.icon != []
  {
    match status
    case Valid => Display("Active", "#28a745", "fas fa-check-circle", 1)
    case Expired => Display("Expired", "#ffc107", "fas fa-clock", 2)
    case Invalid => Display("Invalid", "#dc3545", "fas fa-exclamation-triangle", 3)
    case Missing => Display("Not Configured", "#6c757d", "fas fa-question-circle", 4)
    case Unknown => Display("Checking...", "#17a2b8", "fas fa-spinner fa-spin", 5)
  }

  /** Distinct statuses have distinct priorities and distinct stored values. */
  lemma StatusConfigDistinct(s: CredentialStatus, t: CredentialStatus)
    requires s != t
    ensures StatusConfig(s).priority != StatusConfig(t).priority
    ensures s.Value() != t.Value()
  {
  }

  /** A value in a status record. */
  datatype Value = Str(s: string) | Int(i: int) | Null | ProfileInfo(profile: AWSProfile)

  type Record = map<string, Value>

  /** The `STATUS_CONFIG` entry as dict items. */
  function DisplayFields(status: CredentialStatus): Record {
    var d := StatusConfig(status);
    map["label" := Str(d.labelText), "color" := Str(d.color), "icon" := Str(d.icon), "priority" := Int(d.priority)]
  }

  /** Python's `_create_status_result`: status, message, check time and display fields, then `extra` applied over them. */
  function StatusRecord(status: CredentialStatus, message: string, lastChecked: string, extra: Record): (r: Record)
    ensures r.Keys == {"status", "message", "last_checked", "label", "color", "icon", "priority"} + extra.Keys
    ensures forall k :: k in extra ==> r[k] == extra[k]
    ensures "status" !in extra ==> r["status"] == Str(status.Value())
    ensures "message" !in extra ==> r["message"] == Str(message)
    ensures "last_checked" !in extra ==> r["last_checked"] == Str(lastChecked)
    ensures "priority" !in extra ==> r["priority"] == Int(StatusConfig(status).priority)
    ensures "label" !in extra ==> r["label"] == Str(StatusConfig(status).labelText)
    ensures "color" !in extra ==> r["color"] == Str(StatusConfig(status).color)
    ensures "icon" !in extra ==> r["icon"] == Str(StatusConfig(status).icon)
  {
    map["status" := Str(status.Value()), "message" := Str(message), "last_checked" := Str(lastChecked)]
      + DisplayFields(status) + extra
  }

  /** An AWS configuration file: absent, not parsable as INI, or its section names. */
  datatype IniFile = Absent | Unparsable(error: string) | Sections(names: seq<string>)

  predicate HasSection(file: IniFile, name: string) {
    file.Sections? && name in file.names
  }

  /**
   * Python's `_profile_exists_in_config`: the credentials file is consulted
   * first, then the config file under both `name` and `profile name`; a file
   * that does not parse raises (here `Failure`) when it is read.
   */
  function ProfileExistsInConfig(credentials: IniFile, config: IniFile, name: string): (r: Result<bool, string>)
    ensures r.Failure? <==> credentials.Unparsable? || (!HasSection(credentials, name) && config.Unparsable?)
    ensures r.Success? ==>
      (r.value <==> HasSection(credentials, name) || HasSection(config, name) || HasSection(config, "profile " + name))
    ensures credentials.Absent? && config.Absent? ==> r == Success(false)
  {
    match credentials
    case Unparsable(error) => Failure(error)
    case _ =>
      if HasSection(credentials, name) then Success(true)
      else match config
        case Absent => Success(false)
        case Unparsable(error) => Failure(error)
        case Sections(names) => Success(name in names || "profile " + name in names)
  }

  /** What `_test_aws_credentials` reported: whether `aws sts get-caller-identity` succeeded, and its output. */
  datatype CliResult = CliResult(success: bool, stdout: string, stderr: string)

  predicate IsExpired(stderr: string) {
    Contains(stderr, "ExpiredToken") || Contains(stderr, "TokenRefreshRequired")
  }

  predicate IsRejected(stderr: string) {
    Contains(stderr, "InvalidUserID.NotFound") || Contains(stderr, "AccessDenied")
  }

  /**
   * The decision of `_validate_profile_credentials`: missing when the profile
   * is in neither file, valid when the probe succeeds, expired or invalid by
   * the probe's error text, unknown when the existence check raised.
   */
  function Classify(name: string, existence: Result<bool, string>, cli: CliResult): (r: (CredentialStatus, string))
    ensures existence.Failure? <==> r.0 == Unknown
    ensures existence == Success(false) <==> r.0 == Missing
    ensures r.0 == Valid <==> existence == Success(true) && cli.success
    ensures r.0 == Expired <==> existence == Success(true) && !cli.success && IsExpired(cli.stderr)
    ensures r.0 == Invalid <==> existence == Success(true) && !cli.success && !IsExpired(cli.stderr)
    ensures existence.Failure? ==> r.1 == "Validation error for " + name + ": " + existence.error
    ensures existence == Success(false) ==>
      r.1 == "Profile '" + name + "' not found in ~/.aws configuration" && Contains(r.1, "not found")
    ensures r.0 == Valid ==> r.1 == "Credentials active for " + name
    ensures r.0 == Expired ==> r.1 == "Credentials expired for " + name + ". Please refresh with aws-adfs."
    ensures r.0 == Invalid && IsRejected(cli.stderr) ==> r.1 == "Invalid credentials for " + name + ". Please re-authenticate."
    ensures r.0 == Invalid && !IsRejected(cli.stderr) ==> r.1 == "Credential validation failed for " + name + ": " + cli.stderr
    ensures r.0 == Invalid ==> (IsRejected(cli.stderr) <==> r.1 == "Invalid credentials for " + name + ". Please re-authenticate.")
  {
    match existence
    case Failure(e) => (Unknown, "Validation error for " + name + ": " + e)
    case Success(found) =>
      if !found then
        NotFoundMessage(name);
        (Missing, "Profile '" + name + "' not found in ~/.aws configuration")
      else if cli.success then (Valid, "Credentials active for " + name)
      else if IsExpired(cli.stderr) then (Expired, "Credentials expired for " + name + ". Please refresh with aws-adfs.")
      else if IsRejected(cli.stderr) then (Invalid, "Invalid credentials for " + name + ". Please re-authenticate.")
      else
        var message := "Credential validation failed for " + name + ": " + cli.stderr;
        assert message[0] != "Invalid credentials for "[0];
        (Invalid, message)
  }

  /** The message for a missing profile says it was not found. */
  lemma NotFoundMessage(name: string)
    ensures Contains("Profile '" + name + "' not found in ~/.aws configuration", "not found")
  {
    var before, after := "Profile '" + name + "' ", " in ~/.aws configuration";
    var m := before + "not found" + after;
    assert m == "Profile '" + name + "' not found in ~/.aws configuration";
    assert m[|before|..|before| + 9] == "not found";
    assert OccursAt(m, "not found", |before|);
    ContainsIffOccurs(m, "not found");
  }

  /** The outcome of one validation task: the record it returned, or the exception it raised. */
  datatype TaskOutcome = Returned(record: Record) | RaisedError(error: string)

  /** The record stored for a task that raised: unknown, with the error and the profile itself. */
  function RaisedRecord(profile: AWSProfile, error: string, now: string): (r: Record)
    ensures "status" in r && r["status"] == Str("unknown")
    ensures "profile_info" in r && r["profile_info"] == ProfileInfo(profile)
  {
    map["status" := Str(Unknown.Value()), "message" := Str("Validation error: " + error),
        "last_checked" := Str(now), "profile_info" := ProfileInfo(profile)] + DisplayFields(Unknown)
  }

  /** The record stored for a task's outcome. */
  function RecordFor(profile: AWSProfile, outcome: TaskOutcome, now: string): (r: Record)
    ensures outcome.Returned? ==> r == outcome.record
    ensures outcome.RaisedError? ==> r == RaisedRecord(profile, outcome.error, now)
  {
    match outcome
    case Returned(record) => record
    case RaisedError(error) => RaisedRecord(profile, error, now)
  }

  /** The loop of `validate_all_profiles`: pairs profiles with outcomes (up to the shorter list) and stores each record under the profile's name. */
  function MergeResults(status: map<string, Record>, profiles: seq<AWSProfile>, outcomes: seq<TaskOutcome>, now: string)
    : (merged: map<string, Record>)
    ensures merged.Keys == status.Keys + (set i | 0 <= i < PairCount(profiles, outcomes) :: profiles[i].name)
    decreases |profiles|
  {
    if profiles == [] || outcomes == [] then status
    else MergeResults(status[profiles[0].name := RecordFor(profiles[0], outcomes[0], now)], profiles[1..], outcomes[1..], now)
  }

  /** How many profiles `zip` pairs with an outcome. */
  function PairCount(profiles: seq<AWSProfile>, outcomes: seq<TaskOutcome>): (n: nat)
    ensures n <= |profiles| && n <= |outcomes|
    ensures n == |profiles| || n == |outcomes|
  {
    if |profiles| < |outcomes| then |profiles| else |outcomes|
  }

  /** The name occurs among the first `n` profiles at index `i`, and not after it. */
  predicate LastPairedAt(profiles: seq<AWSProfile>, n: nat, name: string, i: int) {
    0 <= i < n <= |profiles| && profiles[i].name == name
    && forall j :: i < j < n ==> profiles[j].name != name
  }

  /** Merging leaves every entry whose name is not paired as it was, present or absent. */
  lemma {:induction false} MergeKeepsUnpaired(status: map<string, Record>, profiles: seq<AWSProfile>,
                                              outcomes: seq<TaskOutcome>, now: string, name: string)
    requires forall i :: 0 <= i < PairCount(profiles, outcomes) ==> profiles[i].name != name
    ensures var merged := MergeResults(status, profiles, outcomes, now);
      (name in merged <==> name in status) && (name in status ==> merged[name] == status[name])
    decreases |profiles|
  {
    if profiles != [] && outcomes != [] {
      var status' := status[profiles[0].name := RecordFor(profiles[0], outcomes[0], now)];
      assert PairCount(profiles[1..], outcomes[1..]) == PairCount(profiles, outcomes) - 1;
      forall j | 0 <= j < PairCount(profiles[1..], outcomes[1..])
        ensures profiles[1..][j].name != name
      {
        assert profiles[1..][j] == profiles[j + 1];
      }
      MergeKeepsUnpaired(status', profiles[1..], outcomes[1..], now, name);
    }
  }

  /** A paired name ends with the record of its last pairing. */
  lemma {:induction false} MergeTakesLastPairing(status: map<string, Record>, profiles: seq<AWSProfile>,
                                                 outcomes: seq<TaskOutcome>, now: string, i: nat)
    requires i < PairCount(profiles, outcomes)
    requires LastPairedAt(profiles, PairCount(profiles, outcomes), profiles[i].name, i)
    ensures var merged := MergeResults(status, profiles, outcomes, now);
      profiles[i].name in merged && merged[profiles[i].name] == RecordFor(profiles[i], outcomes[i], now)
    decreases |profiles|
  {
    var name := profiles[i].name;
    var status' := status[profiles[0].name := RecordFor(profiles[0], outcomes[0], now)];
    var n := PairCount(profiles, outcomes);
    assert PairCount(profiles[1..], outcomes[1..]) == n - 1;
    if i > 0 {
      assert profiles[1..][i - 1] == profiles[i] && outcomes[1..][i - 1] == outcomes[i];
      forall j | i - 1 < j < n - 1
        ensures profiles[1..][j].name != name
      {
        assert profiles[1..][j] == profiles[j + 1];
      }
      MergeTakesLastPairing(status', profiles[1..], outcomes[1..], now, i - 1);
    } else {
      forall j | 0 <= j < n - 1
        ensures profiles[1..][j].name != name
      {
        assert profiles[1..][j] == profiles[j + 1];
      }
      MergeKeepsUnpaired(status', profiles[1..], outcomes[1..], now, name);
    }
  }

  /** Every record ever stored has a `status` key, except what `validate_all_profiles` is handed back by a task. */
  function StatusOf(record: Record): Value {
    if "status" in record then record["status"] else Str(Unknown.Value())
  }

  /** The multiset of statuses of a status map, one per entry. */
  ghost function StatusBag(m: map<string, Record>): (b: multiset<Value>)
    ensures |b| == |m|
    decreases |m|
  {
    if m == map[] then multiset{}
    else
      var k := AnyKey(m);
      StatusBag(m - {k}) + multiset{StatusOf(m[k])}
  }

  /** Some key of a non-empty map. */
  ghost function AnyKey(m: map<string, Record>): (k: string)
    requires m != map[]
    ensures k in m
  {
    var k :| k in m; k
  }

  /** The bag does not depend on which entry is taken out first. */
  lemma {:induction false} StatusBagRemove(m: map<string, Record>, k: string)
    requires k in m
    ensures StatusBag(m) == StatusBag(m - {k}) + multiset{StatusOf(m[k])}
    decreases |m|
  {
    var j := AnyKey(m);
    if j != k {
      StatusBagRemove(m - {j}, k);
      StatusBagRemove(m - {k}, j);
      RemoveTwoCommute(m, j, k);
      StatusBagSwap(m, j, k, StatusBag(m - {j} - {k}));
    }
  }

  lemma RemoveTwoCommute(m: map<string, Record>, j: string, k: string)
    ensures m - {j} - {k} == m - {k} - {j}
  {
  }

  /** The step of `StatusBagRemove` where the bag takes out another key first. */
  lemma StatusBagSwap(m: map<string, Record>, j: string, k: string, rest: multiset<Value>)
    requires k in m && j in m && j != k && AnyKey(m) == j
    requires StatusBag(m - {j}) == rest + multiset{StatusOf(m[k])}
    requires StatusBag(m - {k}) == rest + multiset{StatusOf(m[j])}
    ensures StatusBag(m) == StatusBag(m - {k}) + multiset{StatusOf(m[k])}
  {
  }

  /** Python's `summary.get(status, 0)`. */
  function Count(summary: map<Value, nat>, v: Value): nat {
    if v in summary then summary[v] else 0
  }

  /** The explicit form of Python's `{...}.get(name, default)` for `get_profile_status`. */
  function DefaultStatusRecord(): (r: Record)
    ensures "status" in r && r["status"] == Str("unknown")
    ensures "message" in r && r["message"] == Str("Status not checked yet")
  {
    map["status" := Str(Unknown.Value()), "message" := Str("Status not checked yet")] + DisplayFields(Unknown)
  }

  /** The `AWSCredentialsManager` class: the two configuration files it reads and the status map it keeps. */
  class AWSCredentialsManager {
    const credentialsFile: IniFile
    const configFile: IniFile
    var profileStatus: map<string, Record>

    constructor (credentialsFile: IniFile, configFile: IniFile)
      ensures this.credentialsFile == credentialsFile && this.configFile == configFile
      ensures profileStatus == map[]
    {
      this.credentialsFile := credentialsFile;
      this.configFile := configFile;
      profileStatus := map[];
    }

    /**
     * The record `_validate_profile_credentials` returns for a profile, given
     * what the probe reported and the identity parsed from its output.
     */
    function ValidateProfileCredentials(name: string, cli: CliResult, identity: Record, now: string): (r: Record)
      ensures var (status, message) := Classify(name, ProfileExistsInConfig(credentialsFile, configFile, name), cli);
        && {"status", "message", "last_checked", "label", "color", "icon", "priority"} <= r.Keys
        && (status != Valid ==> r.Keys == {"status", "message", "last_checked", "label", "color", "icon", "priority"})
        && (status != Valid || "status" !in identity ==> r["status"] == Str(status.Value()))
        && (status != Valid || "message" !in identity ==> r["message"] == Str(message))
        && (status == Valid ==> forall k :: k in identity ==> k in r && r[k] == identity[k])
    {
      var (status, message) := Classify(name, ProfileExistsInConfig(credentialsFile, configFile, name), cli);
      StatusRecord(status, message, now, if status == Valid then identity else map[])
    }

    /**
     * `validate_all_profiles`: task `i` validates `profiles[i]` against its own
     * probe `clis[i]` and parsed identity `identities[i]`; the outcomes are
     * what `gather` hands back, the record or the exception raised. Each
     * paired profile ends with the record of its last pairing.
     */
    method ValidateAllProfiles(profiles: seq<AWSProfile>, clis: seq<CliResult>, identities: seq<Record>,
                               outcomes: seq<TaskOutcome>, now: string)
      returns (all: map<string, Record>)
      requires |clis| == |profiles| && |identities| == |profiles|
      requires forall i :: 0 <= i < |profiles| && i < |outcomes| && outcomes[i].Returned? ==>
        outcomes[i].record == ValidateProfileCredentials(profiles[i].name, clis[i], identities[i], now)
      modifies this
      ensures profileStatus == MergeResults(old(profileStatus), profiles, outcomes, now)
      ensures forall i :: 0 <= i < |profiles| && LastPairedAt(profiles, PairCount(profiles, outcomes), profiles[i].name, i) ==>
        && profiles[i].name in profileStatus
        && (outcomes[i].Returned? ==>
              profileStatus[profiles[i].name] == ValidateProfileCredentials(profiles[i].name, clis[i], identities[i], now))
        && (outcomes[i].RaisedError? ==>
              profileStatus[profiles[i].name] == RaisedRecord(profiles[i], outcomes[i].error, now))
      ensures all == profileStatus
    {
      ghost var initial := profileStatus;
      var i := 0;
      while i < |profiles| && i < |outcomes|
        decreases |profiles| - i
        invariant 0 <= i <= |profiles| && i <= |outcomes|
        invariant MergeResults(initial, profiles, outcomes, now)
               == MergeResults(profileStatus, profiles[i..], outcomes[i..], now)
      {
        var profile := profiles[i];
        match outcomes[i] {
          case RaisedError(error) =>
            profileStatus := profileStatus[profile.name := RaisedRecord(profile, error, now)];
          case Returned(record) =>
            profileStatus := profileStatus[profile.name := record];
        }
        assert profiles[i..][1..] == profiles[i + 1..] && outcomes[i..][1..] == outcomes[i + 1..];
        i := i + 1;
      }
      forall i | 0 <= i < |profiles| && LastPairedAt(profiles, PairCount(profiles, outcomes), profiles[i].name, i)
        ensures profiles[i].name in profileStatus
        ensures profileStatus[profiles[i].name] == RecordFor(profiles[i], outcomes[i], now)
      {
        MergeTakesLastPairing(initial, profiles, outcomes, now, i);
      }
      return profileStatus;
    }

    function GetProfileStatus(name: string): (r: Record)
      reads this
      ensures name in profileStatus ==> r == profileStatus[name]
      ensures name !in profileStatus ==> r == DefaultStatusRecord()
    {
      if name in profileStatus then profileStatus[name] else DefaultStatusRecord()
    }

    /** A copy of the status map (maps are values). */
    method GetAllStatus() returns (all: map<string, Record>)
      ensures all == profileStatus
    {
      all := profileStatus;
    }

    /** Counts the entries per status; entries without a status count as unknown. */
    method GetStatusSummary() returns (summary: map<Value, nat>)
      ensures forall v :: Count(summary, v) == StatusBag(profileStatus)[v]
      ensures forall v :: v in summary ==> summary[v] >= 1
    {
      summary := map[];
      var remaining := profileStatus;
      while remaining != map[]
        invariant forall v :: Count(summary, v) + StatusBag(remaining)[v] == StatusBag(profileStatus)[v]
        invariant forall v :: v in summary ==> summary[v] >= 1
        decreases |remaining|
      {
        var name :| name in remaining;
        var status := StatusOf(remaining[name]);
        StatusBagRemove(remaining, name);
        CountTick(summary, status);
        summary := summary[status := Count(summary, status) + 1];
        remaining := remaining - {name};
      }
    }
  }

  /** Counting one more entry of a status raises that status's count by one and leaves the others. */
  lemma CountTick(summary: map<Value, nat>, status: Value)
    ensures forall v :: Count(summary[status := Count(summary, status) + 1], v)
                        == Count(summary, v) + multiset{status}[v]
  {
  }

  /**
   * A keyword option of `build_aws_adfs_command` as the request's JSON gives
   * it: null, a boolean, a whole number or a string.
   */
  datatype OptionValue = NullArg | BoolArg(b: bool) | IntArg(n: int) | TextArg(text: string)

  /** Python truthiness of an option value. */
  predicate IsTruthy(v: OptionValue) {
    match v
    case NullArg => false
    case BoolArg(b) => b
    case IntArg(n) => n != 0
    case TextArg(text) => text != []
  }

  /** The option value as an f-string writes it. */
  function Rendered(v: OptionValue): (r: string)
    ensures v.TextArg? ==> r == v.text
    ensures v.IntArg? ==> r == IntToString(v.n)
    ensures v.BoolArg? ==> r == (if v.b then "True" else "False")
  {
    match v
    case NullArg => "None"
    case BoolArg(b) => if b then "True" else "False"
    case IntArg(n) => IntToString(n)
    case TextArg(text) => text
  }

  /**
   * The keyword options of `build_aws_adfs_command` merged over the
   * builder's defaults, so every key is present: both switches on and the
   * four valued options null unless the request sets them.
   */
  datatype AdfsOptions = AdfsOptions(
    envMode: OptionValue := BoolArg(true),
    noSspi: OptionValue := BoolArg(true),
    region: OptionValue := NullArg,
    outputFormat: OptionValue := NullArg,
    duration: OptionValue := NullArg,
    assertionDuration: OptionValue := NullArg,
    customArgs: seq<string> := [])

  /** `[flag + value]` when the value is truthy, nothing otherwise. */
  function Flag(flag: string, v: OptionValue): (r: seq<string>)
    ensures IsTruthy(v) ==> r == [flag + Rendered(v)]
    ensures !IsTruthy(v) ==> r == []
  {
    if IsTruthy(v) then [flag + Rendered(v)] else []
  }

  /** 1 for an option that adds an argument, 0 for one that does not. */
  function On(b: bool): nat {
    if b then 1 else 0
  }

  /**
   * The optional switches of `aws-adfs login`, in the order they are appended:
   * one per option that is on or truthy, each present exactly when its option
   * asks for it, and nothing else.
   */
  function AdfsSwitches(o: AdfsOptions): (s: seq<string>)
    ensures |s| == On(IsTruthy(o.envMode)) + On(IsTruthy(o.noSspi)) + On(IsTruthy(o.region)) + On(IsTruthy(o.outputFormat))
                   + On(IsTruthy(o.duration)) + On(IsTruthy(o.assertionDuration))
    ensures "--env" in s <==> IsTruthy(o.envMode)
    ensures "--no-sspi" in s <==> IsTruthy(o.noSspi)
    ensures IsTruthy(o.region) ==> "--region=" + Rendered(o.region) in s
    ensures IsTruthy(o.outputFormat) ==> "--output-format=" + Rendered(o.outputFormat) in s
    ensures IsTruthy(o.duration) ==> "--duration=" + Rendered(o.duration) in s
    ensures IsTruthy(o.assertionDuration) ==> "--assertion-duration=" + Rendered(o.assertionDuration) in s
  {
    (if IsTruthy(o.envMode) then ["--env"] else []) + (if IsTruthy(o.noSspi) then ["--no-sspi"] else [])
      + Flag("--region=", o.region) + Flag("--output-format=", o.outputFormat)
      + Flag("--duration=", o.duration) + Flag("--assertion-duration=", o.assertionDuration)
  }

  /** Python's `build_aws_adfs_command`: the fixed four arguments, the switches, then the custom arguments in the order given. */
  function BuildAwsAdfsCommand(profileName: string, adfsHost: string, o: AdfsOptions): (cmd: seq<string>)
    ensures 4 + |o.customArgs| <= |cmd| <= 10 + |o.customArgs|
    ensures cmd[..4] == ["aws-adfs", "login", "--profile=" + profileName, "--adfs-host=" + adfsHost]
    ensures cmd[4..|cmd| - |o.customArgs|] == AdfsSwitches(o)
    ensures cmd[|cmd| - |o.customArgs|..] == o.customArgs
  {
    var cmd := ["aws-adfs", "login", "--profile=" + profileName, "--adfs-host=" + adfsHost] + AdfsSwitches(o) + o.customArgs;
    assert cmd[4..|cmd| - |o.customArgs|] == AdfsSwitches(o);
    cmd
  }

  /** With the default options the command asks for `--env` and `--no-sspi` and nothing else. */
  lemma AdfsDefaults(profileName: string, adfsHost: string)
    ensures BuildAwsAdfsCommand(profileName, adfsHost, AdfsOptions())
         == ["aws-adfs", "login", "--profile=" + profileName, "--adfs-host=" + adfsHost, "--env", "--no-sspi"]
  {
  }

  /**
   * Where each switch sits: at the number of switches present before it, in
   * the order env mode, no SSPI, region, output format, duration, assertion
   * duration. With the exact length of `AdfsSwitches` this fixes every position.
   */
  lemma AdfsFlagOrder(o: AdfsOptions)
    ensures var s := AdfsSwitches(o);
      var atRegion := On(IsTruthy(o.envMode)) + On(IsTruthy(o.noSspi));
      var atOutput := atRegion + On(IsTruthy(o.region));
      var atDuration := atOutput + On(IsTruthy(o.outputFormat));
      var atAssertion := atDuration + On(IsTruthy(o.duration));
      && (IsTruthy(o.envMode) ==> s[0] == "--env")
      && (IsTruthy(o.noSspi) ==> s[On(IsTruthy(o.envMode))] == "--no-sspi")
      && (IsTruthy(o.region) ==> s[atRegion] == "--region=" + Rendered(o.region))
      && (IsTruthy(o.outputFormat) ==> s[atOutput] == "--output-format=" + Rendered(o.outputFormat))
      && (IsTruthy(o.duration) ==> s[atDuration] == "--duration=" + Rendered(o.duration))
      && (IsTruthy(o.assertionDuration) ==> s[atAssertion] == "--assertion-duration=" + Rendered(o.assertionDuration))
  {
    SwitchesAt(o);
    RegionAt(o);
    OutputFormatAt(o);
    DurationAt(o);
    AssertionDurationAt(o);
  }

  lemma SwitchesAt(o: AdfsOptions)
    ensures IsTruthy(o.envMode) ==> AdfsSwitches(o)[0] == "--env"
    ensures IsTruthy(o.noSspi) ==> AdfsSwitches(o)[On(IsTruthy(o.envMode))] == "--no-sspi"
  {
  }

  lemma RegionAt(o: AdfsOptions)
    ensures IsTruthy(o.region) ==> AdfsSwitches(o)[On(IsTruthy(o.envMode)) + On(IsTruthy(o.noSspi))] == "--region=" + Rendered(o.region)
  {
    var upTo := (if IsTruthy(o.envMode) then ["--env"] else []) + (if IsTruthy(o.noSspi) then ["--no-sspi"] else [])
                + Flag("--region=", o.region);
    assert AdfsSwitches(o) == upTo + Flag("--output-format=", o.outputFormat) + Flag("--duration=", o.duration)
                              + Flag("--assertion-duration=", o.assertionDuration);
  }

  lemma OutputFormatAt(o: AdfsOptions)
    ensures IsTruthy(o.outputFormat) ==>
      AdfsSwitches(o)[On(IsTruthy(o.envMode)) + On(IsTruthy(o.noSspi)) + On(IsTruthy(o.region))] == "--output-format=" + Rendered(o.outputFormat)
  {
    var upTo := (if IsTruthy(o.envMode) then ["--env"] else []) + (if IsTruthy(o.noSspi) then ["--no-sspi"] else [])
                + Flag("--region=", o.region) + Flag("--output-format=", o.outputFormat);
    assert AdfsSwitches(o) == upTo + Flag("--duration=", o.duration) + Flag("--assertion-duration=", o.assertionDuration);
  }

  lemma DurationAt(o: AdfsOptions)
    ensures IsTruthy(o.duration) ==>
      AdfsSwitches(o)[On(IsTruthy(o.envMode)) + On(IsTruthy(o.noSspi)) + On(IsTruthy(o.region)) + On(IsTruthy(o.outputFormat))]
        == "--duration=" + Rendered(o.duration)
  {
  }

  lemma AssertionDurationAt(o: AdfsOptions)
    ensures IsTruthy(o.assertionDuration) ==>
      AdfsSwitches(o)[On(IsTruthy(o.envMode)) + On(IsTruthy(o.noSspi)) + On(IsTruthy(o.region)) + On(IsTruthy(o.outputFormat))
                      + On(IsTruthy(o.duration))]
        == "--assertion-duration=" + Rendered(o.assertionDuration)
  {
  }

  /** The keyword options of `build_aws_cli_command`. */
  datatype CliOptions = CliOptions(
    region: Option<string> := None,
    output: Option<string> := None,
    endpointUrl: Option<string> := None,
    extraArgs: seq<string> := [])

  /** `[flag, value]` when the value is truthy, nothing otherwise. */
  function Pair(flag: string, v: Option<string>): (r: seq<string>)
    ensures Truthy(v) ==> r == [flag, v.value]
    ensures !Truthy(v) ==> r == []
  {
    if Truthy(v) then [flag, v.value] else []
  }

  /** The argument vector of `build_aws_cli_command` once the base command is split into words. */
  function CliCommand(words: seq<string>, profileName: string, o: CliOptions): (cmd: seq<string>)
    ensures |cmd| == 3 + |words| + 2 * (On(Truthy(o.region)) + On(Truthy(o.output)) + On(Truthy(o.endpointUrl)))
                     + |o.extraArgs|
    ensures cmd[0] == "aws" && cmd[1..1 + |words|] == words
    ensures cmd[1 + |words|] == "--profile" && cmd[2 + |words|] == profileName
    ensures cmd[..3 + |words|] == ["aws"] + words + ["--profile", profileName]
    ensures cmd[3 + |words|..|cmd| - |o.extraArgs|]
         == Pair("--region", o.region) + Pair("--output", o.output) + Pair("--endpoint-url", o.endpointUrl)
    ensures cmd[|cmd| - |o.extraArgs|..] == o.extraArgs
  {
    var options := Pair("--region", o.region) + Pair("--output", o.output) + Pair("--endpoint-url", o.endpointUrl);
    var cmd := (["aws"] + words) + (["--profile", profileName] + options) + o.extraArgs;
    assert cmd[1..1 + |words|] == words;
    assert cmd[..3 + |words|] == ["aws"] + words + ["--profile", profileName];
    assert cmd[3 + |words|..|cmd| - |o.extraArgs|] == options;
    cmd
  }

  /** Python's `build_aws_cli_command`: `aws`, the words of the base command, the profile, the optional pairs, then the extra arguments. */
  function BuildAwsCliCommand(baseCommand: string, profileName: string, o: CliOptions): (cmd: seq<string>)
    ensures |cmd| >= 3 + |SplitWhitespace(baseCommand)| + |o.extraArgs|
    ensures cmd[..3 + |SplitWhitespace(baseCommand)|] == ["aws"] + SplitWhitespace(baseCommand) + ["--profile", profileName]
    ensures cmd[|cmd| - |o.extraArgs|..] == o.extraArgs
  {
    CliCommand(SplitWhitespace(baseCommand), profileName, o)
  }

  /** A base command written as words separated by single spaces is passed on word for word. */
  lemma CliCommandKeepsWords(words: seq<string>, profileName: string, o: CliOptions)
    requires forall k :: 0 <= k < |words| ==> IsWord(words[k])
    ensures SplitWhitespace(Join(words, " ")) == words
    ensures BuildAwsCliCommand(Join(words, " "), profileName, o)[1..1 + |words|] == words
  {
    SplitJoinRoundTrip(words);
  }
}
