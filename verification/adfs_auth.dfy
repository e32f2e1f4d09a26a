/**
 * The ADFS authenticator of src/aws_adfs/adfs_auth.py: the `aws-adfs login`
 * argument vector, the classification of the tool's output into a message
 * for the user, and the per-profile map of authentication results. The
 * process itself is a parameter: a function from the argument vector to what
 * was observed of the run.
 */
module AdfsAuth {
  import opened Wrappers
  import opened Text
  import opened Models

  /** Python's `_build_command`: the fixed four arguments, then `--env` and `--no-sspi` as the settings ask. */
  function BuildCommand(request: AuthenticationRequest): (cmd: seq<string>)
    ensures |cmd| == 4 + (if request.settings.envMode then 1 else 0) + (if request.settings.noSspi then 1 else 0)
    ensures cmd[..4] == ["aws-adfs", "login", "--profile=" + request.profile,
                         "--adfs-host=" + request.credentials.adfsHost]
    ensures request.settings.envMode ==> cmd[4] == "--env"
    ensures request.settings.noSspi ==> cmd[|cmd| - 1] == "--no-sspi"
    ensures "--env" in cmd <==> request.settings.envMode
    ensures "--no-sspi" in cmd <==> request.settings.noSspi
  {
    var base := ["aws-adfs", "login", "--profile=" + request.profile, "--adfs-host=" + request.credentials.adfsHost];
    var withEnv := if request.settings.envMode then base + ["--env"] else base;
    var cmd := if request.settings.noSspi then withEnv + ["--no-sspi"] else withEnv;
    assert |cmd[2]| >= 10 && |cmd[3]| >= 12;
    cmd
  }

  const UnknownErrorOccurred: string := "Unknown error occurred"
  const UnknownAuthenticationError: string := "Unknown authentication error"
  const NotInstalledMessage: string := "aws-adfs command not found. Please install aws-adfs: pip install aws-adfs"

  /** Some pattern of `patterns` occurs in `text`. */
  predicate AnyContains(text: string, patterns: seq<string>) {
    patterns != [] && (Contains(text, patterns[0]) || AnyContains(text, patterns[1..]))
  }

  /** Every pattern of `patterns` occurs in `text`. */
  predicate AllContain(text: string, patterns: seq<string>) {
    patterns == [] || (Contains(text, patterns[0]) && AllContain(text, patterns[1..]))
  }

  /** One row of the classification: it fires when every `allOf` pattern and some `anyOf` pattern occur. */
  datatype Rule = Rule(allOf: seq<string>, anyOf: seq<string>, message: string)

  predicate Fires(rule: Rule, lowered: string) {
    AllContain(lowered, rule.allOf) && AnyContains(lowered, rule.anyOf)
  }

  /** The classification of `_parse_error_message` as an ordered table: the first rule that fires decides. */
  const Rules: seq<Rule> := [
    Rule([], ["invalid username or password", "authentication failed"],
         "Invalid username or password. Please check your credentials."),
    Rule([], ["connection refused", "unable to connect"],
         "Cannot connect to ADFS server. Please check the hostname and network connection."),
    Rule(["ssl"], ["certificate", "verify"],
         "SSL certificate error. Please check your certificate file or disable SSL verification."),
    Rule([], ["timeout"],
         "Connection timeout. Please check your network connection and ADFS server availability."),
    Rule([], ["command not found", "aws-adfs"], NotInstalledMessage),
    Rule([], ["permission denied"], "Permission denied. Please check your system permissions."),
    Rule([], ["network is unreachable"], "Network is unreachable. Please check your internet connection."),
    Rule([], ["name or service not known"], "Cannot resolve ADFS server hostname. Please check the server address.")
  ]

  /** The index of the first rule that fires, or `|rules|` when none does. */
  function FirstFiring(rules: seq<Rule>, lowered: string): (k: nat)
    ensures k <= |rules|
    ensures k < |rules| ==> Fires(rules[k], lowered)
    ensures forall j :: 0 <= j < k ==> !Fires(rules[j], lowered)
  {
    if rules == [] then 0 else if Fires(rules[0], lowered) then 0 else 1 + FirstFiring(rules[1..], lowered)
  }

  /** What is reported when no rule fires: the stripped first line, or a fixed text when that is empty. */
  function FallbackMessage(output: string): (r: string)
    ensures r != []
    ensures Strip(FirstLine(output)) != [] ==> r == Strip(FirstLine(output))
    ensures Strip(FirstLine(output)) == [] ==> r == UnknownAuthenticationError
  {
    var firstLine := Strip(FirstLine(output));
    if firstLine != [] then firstLine else UnknownAuthenticationError
  }

  /**
   * Python's `_parse_error_message`: empty output has its own message;
   * otherwise the lower-cased output is matched against `Rules` in order,
   * and when no rule fires the stripped first line is reported.
   */
  function ParseErrorMessage(output: string): (r: string)
    ensures r != []
    ensures output == [] ==> r == UnknownErrorOccurred
    ensures output != [] && FirstFiring(Rules, Lower(output)) < |Rules| ==>
              r == Rules[FirstFiring(Rules, Lower(output))].message
    ensures output != [] && FirstFiring(Rules, Lower(output)) == |Rules| ==> r == FallbackMessage(output)
  {
    if output == [] then UnknownErrorOccurred
    else
      var k := FirstFiring(Rules, Lower(output));
      assert forall j :: 0 <= j < |Rules| ==> Rules[j].message != [];
      if k < |Rules| then Rules[k].message else FallbackMessage(output)
  }

  /** Each row of `Rules`, read as the condition of the corresponding branch of `_parse_error_message`. */
  lemma RuleConditions(low: string)
    ensures Fires(Rules[0], low) <==> Contains(low, "invalid username or password") || Contains(low, "authentication failed")
    ensures Fires(Rules[1], low) <==> Contains(low, "connection refused") || Contains(low, "unable to connect")
    ensures Fires(Rules[2], low) <==> Contains(low, "ssl") && (Contains(low, "certificate") || Contains(low, "verify"))
    ensures Fires(Rules[3], low) <==> Contains(low, "timeout")
    ensures Fires(Rules[4], low) <==> Contains(low, "command not found") || Contains(low, "aws-adfs")
    ensures Fires(Rules[5], low) <==> Contains(low, "permission denied")
    ensures Fires(Rules[6], low) <==> Contains(low, "network is unreachable")
    ensures Fires(Rules[7], low) <==> Contains(low, "name or service not known")
  {
    AnyOfTwo(low, "invalid username or password", "authentication failed");
    AnyOfTwo(low, "connection refused", "unable to connect");
    AnyOfTwo(low, "certificate", "verify");
    AnyOfOne(low, "ssl");
    AnyOfOne(low, "timeout");
    AnyOfTwo(low, "command not found", "aws-adfs");
    AnyOfOne(low, "permission denied");
    AnyOfOne(low, "network is unreachable");
    AnyOfOne(low, "name or service not known");
  }

  lemma AnyOfOne(low: string, a: string)
    ensures AnyContains(low, [a]) <==> Contains(low, a)
    ensures AllContain(low, [a]) <==> Contains(low, a)
  {
    assert [a][1..] == [];
  }

  lemma AnyOfTwo(low: string, a: string, b: string)
    ensures AnyContains(low, [a, b]) <==> Contains(low, a) || Contains(low, b)
  {
    assert [a, b][1..] == [b];
    AnyOfOne(low, b);
  }

  /** A rule that fires decides the message whenever no earlier rule fires, whatever later rules would say. */
  lemma FirstFiringRuleDecides(output: string, j: nat)
    requires output != [] && j < |Rules|
    requires Fires(Rules[j], Lower(output))
    requires forall i :: 0 <= i < j ==> !Fires(Rules[i], Lower(output))
    ensures ParseErrorMessage(output) == Rules[j].message
  {
    FirstFiringIs(Rules, Lower(output), j);
  }

  /** `FirstFiring` is the one index that fires with no earlier rule firing. */
  lemma {:induction false} FirstFiringIs(rules: seq<Rule>, lowered: string, j: nat)
    requires j < |rules| && Fires(rules[j], lowered)
    requires forall i :: 0 <= i < j ==> !Fires(rules[i], lowered)
    ensures FirstFiring(rules, lowered) == j
  {
    if j > 0 {
      FirstFiringIs(rules[1..], lowered, j - 1);
    }
  }

  /** Matching ignores case: outputs that lower-case alike and fire a rule get the same message. */
  lemma MatchingIgnoresCase(a: string, b: string)
    requires a != [] && b != [] && Lower(a) == Lower(b)
    requires FirstFiring(Rules, Lower(a)) < |Rules|
    ensures ParseErrorMessage(a) == ParseErrorMessage(b)
  {
  }

  /** What `_execute_command` observed of the `aws-adfs` process. */
  datatype LoginProcess =
    | Exited(returnCode: int, output: string)
    | TimedOut
    | NotInstalled
    | Crashed(error: string)

  /** Python's `_execute_command` result for an observed run: success exactly on return code 0. */
  function ExecuteOutcome(process: LoginProcess, timeout: int): (r: (bool, string))
    ensures r.0 <==> process.Exited? && process.returnCode == 0
    ensures process.Exited? ==> r.1 == process.output
    ensures process.TimedOut? ==> r.1 == "Authentication timed out after " + IntToString(timeout) + " seconds"
    ensures process.NotInstalled? ==> r.1 == NotInstalledMessage
    ensures process.Crashed? ==> r.1 == "Command execution error: " + process.error
  {
    match process
    case Exited(code, output) => (code == 0, output)
    case TimedOut => (false, "Authentication timed out after " + IntToString(timeout) + " seconds")
    case NotInstalled => (false, NotInstalledMessage)
    case Crashed(error) => (false, "Command execution error: " + error)
  }

  /** A login attempt: the process ran (with some outcome), or `authenticate` itself raised. */
  datatype LoginRun = Ran(process: LoginProcess) | Raised(error: string)

  function Quoted(profile: string): string {
    "'" + profile + "'"
  }

  /** The `(success, message)` pair `authenticate` returns for an attempt. */
  function AuthenticationOutcome(request: AuthenticationRequest, run: LoginRun): (r: (bool, string))
    ensures r.0 <==> run.Ran? && run.process.Exited? && run.process.returnCode == 0
    ensures r.0 ==> r.1 == "Successfully authenticated profile " + Quoted(request.profile)
    ensures run.Ran? && !r.0 ==>
      r.1 == "Authentication failed for profile " + Quoted(request.profile) + ": "
             + ParseErrorMessage(ExecuteOutcome(run.process, request.settings.timeout).1)
    ensures run.Raised? ==> r.1 == "Authentication error for profile " + Quoted(request.profile) + ": " + run.error
  {
    match run
    case Raised(error) => (false, "Authentication error for profile " + Quoted(request.profile) + ": " + error)
    case Ran(process) =>
      var (success, output) := ExecuteOutcome(process, request.settings.timeout);
      if success then (true, "Successfully authenticated profile " + Quoted(request.profile))
      else (false, "Authentication failed for profile " + Quoted(request.profile) + ": " + ParseErrorMessage(output))
  }

  const TestProfile: string := "test-connection"

  /** The request `test_credentials` authenticates with: a throw-away profile and a 10-second timeout. */
  function TestRequest(credentials: ADFSCredentials): AuthenticationRequest {
    AuthenticationRequest(TestProfile, credentials, ConnectionSettings(timeout := 10))
  }

  /** The `ADFSAuthenticator` class: which profiles the last attempt authenticated. */
  class ADFSAuthenticator {
    var authenticatedProfiles: map<string, bool>

    constructor ()
      ensures authenticatedProfiles == map[]
    {
      authenticatedProfiles := map[];
    }

    /** Python's `is_authenticated`: false for absent profiles and for failed attempts. */
    function IsAuthenticated(profile: string): (r: bool)
      reads this
      ensures r <==> profile in authenticatedProfiles && authenticatedProfiles[profile]
    {
      profile in authenticatedProfiles && authenticatedProfiles[profile]
    }

    /** Runs `aws-adfs login` through `launch` and records the outcome under the request's profile only. */
    method Authenticate(request: AuthenticationRequest, launch: seq<string> -> LoginRun)
      returns (success: bool, message: string)
      modifies this
      ensures (success, message) == AuthenticationOutcome(request, launch(BuildCommand(request)))
      ensures authenticatedProfiles == old(authenticatedProfiles)[request.profile := success]
      ensures IsAuthenticated(request.profile) == success
      ensures forall p :: p != request.profile ==> IsAuthenticated(p) == old(IsAuthenticated(p))
    {
      var cmd := BuildCommand(request);
      var run := launch(cmd);
      match run
      case Raised(error) =>
        authenticatedProfiles := authenticatedProfiles[request.profile := false];
        return false, "Authentication error for profile " + Quoted(request.profile) + ": " + error;
      case Ran(process) =>
        var (ok, output) := ExecuteOutcome(process, request.settings.timeout);
        if ok {
          authenticatedProfiles := authenticatedProfiles[request.profile := true];
          return true, "Successfully authenticated profile " + Quoted(request.profile);
        } else {
          authenticatedProfiles := authenticatedProfiles[request.profile := false];
          var errorMessage := ParseErrorMessage(output);
          return false, "Authentication failed for profile " + Quoted(request.profile) + ": " + errorMessage;
        }
    }

    /** Forgets one profile; a no-op when it is unknown. */
    method Logout(profile: string)
      modifies this
      ensures authenticatedProfiles == old(authenticatedProfiles) - {profile}
      ensures !IsAuthenticated(profile)
      ensures forall p :: p != profile ==> IsAuthenticated(p) == old(IsAuthenticated(p))
    {
      if profile in authenticatedProfiles {
        authenticatedProfiles := authenticatedProfiles - {profile};
      }
    }

    method LogoutAll()
      modifies this
      ensures authenticatedProfiles == map[]
      ensures forall p :: !IsAuthenticated(p)
    {
      authenticatedProfiles := map[];
    }

    /** Authenticates the throw-away profile, then removes it, so no other profile's entry changes. */
    method TestCredentials(credentials: ADFSCredentials, launch: seq<string> -> LoginRun)
      returns (success: bool, message: string)
      modifies this
      ensures (success, message) == AuthenticationOutcome(TestRequest(credentials), launch(BuildCommand(TestRequest(credentials))))
      ensures authenticatedProfiles == old(authenticatedProfiles) - {TestProfile}
    {
      var request := TestRequest(credentials);
      success, message := Authenticate(request, launch);
      if TestProfile in authenticatedProfiles {
        authenticatedProfiles := authenticatedProfiles - {TestProfile};
      }
    }
  }
}
