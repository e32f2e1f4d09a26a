# aws-adfs-gui, modelled in Dafny

This project models the decision-making core of aws-adfs-gui. That is a small
web application which logs AWS profiles in through `aws-adfs` (ADFS single
sign-on) and runs AWS CLI commands across groups of profiles. The repository
holds two near-duplicate packages, the older `aws_adfs` and the newer
`aws_adfs_gui`. The model covers:

- **Command executor** (`command_executor.dfy`, module `CommandExecution`). It splits the requested profiles into a dev batch and
  the rest. It applies the fail-fast rule: when any dev result fails, nothing
  else runs. It maps a process outcome to a `CommandResult`, and keeps a
  bounded FIFO history of 100 entries.
- **ADFS authenticator** (`adfs_auth.dfy`). It builds the `aws-adfs login`
  argument vector and classifies tool output into a user message by an
  ordered, case-insensitive table of rules. It also keeps the per-profile map
  of authentication results, with login, logout, logout-all and the
  throw-away profile of `test_credentials`.
- **Credentials manager and command builder** (`aws_credentials.dfy`). It holds
  the five statuses and their display table. It classifies a profile from its
  presence in the AWS INI files and the outcome of the STS probe. It keeps the
  status map with its merge and summary, and builds the `aws-adfs` and `aws`
  argument vectors.
- **WebSocket connection managers** of both packages (`gui_web_app.dfy`,
  `legacy_web_app.dfy`, with the shared message types and socket bookkeeping
  in `protocol.dfy`). A socket is an integer id and every send appends an
  `Envelope` to an `outbox`. The older package also has the JSON/CSV/text
  export, including the proof that a CSV row reads back as its fields.
- **Profile registries** (`profile_registry.dfy` for the older `Config`, and
  `gui_config.dfy` for the newer `ConfigManager`). Each is a dict from group
  to profile list, with lookup, add and remove-first-match. The newer one
  also has the key encoding for persistence, with fallback to the defaults.
- **Models and `hello`** (`models.dfy`, `greeting.dfy`), plus `text.dfy` (the
  parts of Python's `str` the core uses) and `wrappers.dfy` (`Option`,
  `Result`).

Python dicts whose iteration order matters become association lists
(`GroupTable`, a sequence of `GroupEntry` with distinct keys). Status records
are `map<string, Value>`. A dict merge `{**a, **b}` becomes the map union
`a + b`.

Subprocesses, clocks, `uuid4`, JSON and INI files and sockets are
parameters:

- a process outcome is a datatype;
- a timestamp or an id is a string;
- a file is a datatype of its possible contents;
- the profile lookup and the login runner are functions passed in.

## Model

| member | source | states |
|---|---|---|
| Models.ParseGroup | src/aws_adfs_gui/models.py:8-13 | `ProfileGroup(s)` succeeds exactly for "dev", "np" and "pd", and gives the member whose value is `s` |
| Models.GroupValueRoundTrip | src/aws_adfs/models.py:9-14 | the enum has exactly three members, with values "dev", "np" and "pd", and each value parses back to its member |
| Models.Defaults | src/aws_adfs_gui/models.py:16-92 | the declared defaults: region "us-east-1", no description, timeout 300, output "" and no error, an empty groups map, format "json" with timestamps, and `ConnectionSettings` 30/3/true/true as the default settings of an authentication request |
| Greeting.Hello | src/aws_adfs/main.py:8-19 | `hello()` is "Hello, World!"; every greeting starts with "Hello, ", ends with "!" and is as long as prefix, name and "!" together |
| Greeting.GreetedNameOfHello | src/aws_adfs/main.py:17-19 | the text between "Hello, " and the final "!" is the name given, or "World" when none is given |
| Greeting.HelloInjective | src/aws_adfs/main.py:19 | different names get different greetings |
| Text.Lower | src/aws_adfs/adfs_auth.py:131 | `lower()` keeps the length, maps each character by itself and leaves no upper-case letter |
| Text.ContainsIffOccurs | src/aws_adfs/adfs_auth.py:135-155 | `pattern in s` holds exactly when the pattern occurs as a contiguous slice of `s` |
| Text.FirstLine | src/aws_adfs/adfs_auth.py:161 | `split("\n")[0]` is a prefix without line breaks that stops at the first line break |
| Text.Strip | src/aws_adfs/adfs_auth.py:161 | `strip()` is empty exactly when the text is all white space, and otherwise starts and ends with a non-space |
| Text.StripIsSlice | src/aws_adfs/adfs_auth.py:161 | `strip()` is a slice of the text with only white space before and after it: the outer white space is removed and nothing else |
| Text.SplitWhitespace | src/aws_adfs_gui/aws_credentials.py:329 | `split()` yields only non-empty words without white space |
| Text.SplitWhitespaceIff | src/aws_adfs_gui/aws_credentials.py:329 | `split()` gives `words` exactly when the text is those words separated by non-empty runs of white space, with optional white space at both ends: the words are the maximal non-space runs, in order |
| Text.SplitWhitespaceSplits | src/aws_adfs_gui/aws_credentials.py:329 | the text is always its `split()` words with white-space gaps between them |
| Text.SplitOfInterleave | src/aws_adfs_gui/aws_credentials.py:329 | words interleaved with such gaps are exactly what `split()` gives back |
| Text.SplitJoinRoundTrip | src/aws_adfs_gui/aws_credentials.py:329 | splitting words joined by single spaces gives the words back |
| Text.NatToStringRoundTrip | src/aws_adfs_gui/command_executor.py:150 | the decimal digits of `str(n)` denote `n` |
| Text.IntToString | src/aws_adfs_gui/command_executor.py:150 | `str(i)` starts with "-" exactly for negative numbers, and the rest is a non-empty run of decimal digits whose value is the absolute value of `i` |
| Text.EscapeQuotes | src/aws_adfs/web_app.py:319-320 | `replace('"', '""')` grows the text by one character per double quote |
| Text.UnescapeEscape | src/aws_adfs/web_app.py:319-320 | collapsing doubled quotes after escaping gives the original text back |
| Text.Repeat | src/aws_adfs/web_app.py:336 | `c * n` is `n` copies of `c` (the fifty-dash separator) |
| CommandExecution.SingleResult | src/aws_adfs_gui/command_executor.py:98-155 | the result names the profile; it succeeds exactly on return code 0, and exactly when it has no error; a non-zero exit carries its stderr as the error; a timeout gives no output and "Command timed out after {timeout} seconds"; an exception gives no output and its text as the error |
| CommandExecution.Batch | src/aws_adfs_gui/command_executor.py:34-43 | every name in the dev batch looks up to a "dev" profile, and every name in the other batch does not (unknown names included); a name is in a batch exactly when it was requested and its lookup falls on that side |
| CommandExecution.DevProfiles | src/aws_adfs_gui/command_executor.py:35-41 | `dev_profiles` holds exactly the requested names whose lookup finds a profile of group "dev" |
| CommandExecution.OtherProfiles | src/aws_adfs_gui/command_executor.py:36-43 | `other_profiles` holds exactly the requested names whose lookup finds no profile or one of another group |
| CommandExecution.BatchAppend | src/aws_adfs_gui/command_executor.py:38-43 | each batch keeps request order: the batch of a concatenation is the concatenation of the batches |
| CommandExecution.PartitionSpec | src/aws_adfs_gui/command_executor.py:34-43 | the two batches together are a permutation of the requested names |
| CommandExecution.Results | src/aws_adfs_gui/command_executor.py:47-55 | one result per profile of a batch, in batch order |
| CommandExecution.ProfilesOf | src/aws_adfs_gui/command_executor.py:52-55 | the profile of each result, in order |
| CommandExecution.SuccessCount | src/aws_adfs_gui/command_executor.py:68 | the count of successful results is at most their number, and equals it exactly when every result succeeded |
| CommandExecution.SuccessCountAppend | src/aws_adfs_gui/command_executor.py:85-86 | success counts add up over concatenation |
| CommandExecution.Entry | src/aws_adfs_gui/command_executor.py:88-95 | the `CommandHistory` record carries the command id, the request's command and profiles, the start time, the given success count, and the number of requested profiles as its total |
| CommandExecution.Plan | src/aws_adfs_gui/command_executor.py:22-96 | the history entry carries the request's id, command, start time and profiles, with total = number of requested profiles and 0 <= successes <= results <= requested |
| CommandExecution.PlanFailFast | src/aws_adfs_gui/command_executor.py:57-72 | when any dev result fails, only dev profiles run, and the entry counts the dev successes, fewer than the dev profiles |
| CommandExecution.PlanRunsEveryProfile | src/aws_adfs_gui/command_executor.py:74-96 | otherwise every requested profile runs exactly once, and the entry counts every success; the count is full exactly when every result succeeded |
| CommandExecution.HistoryAppend | src/aws_adfs_gui/command_executor.py:157-161 | the new entry is last; below capacity nothing is evicted; the bound is kept; the history is a suffix of old history plus the entry |
| CommandExecution.LastN | src/aws_adfs_gui/command_executor.py:157-161 | the last `n` entries: `min(n, len)` of them, a suffix of the input |
| CommandExecution.HistoryIsWindow | src/aws_adfs_gui/command_executor.py:157-161 | after any number of additions the history is exactly the last `max_history` entries ever added, oldest first |
| CommandExecution.HistoryAppendWindow | src/aws_adfs_gui/command_executor.py:159-161 | one addition keeps the window of everything added so far |
| CommandExecution.CommandExecutor.constructor | src/aws_adfs_gui/command_executor.py:17-20 | a new executor has an empty history and `max_history` 100 |
| CommandExecution.CommandExecutor.AddToHistory | src/aws_adfs_gui/command_executor.py:157-161 | append, then drop index 0 only when over the bound: the new history is `HistoryAppend` of the old one |
| CommandExecution.CommandExecutor.GetCommandHistory | src/aws_adfs_gui/command_executor.py:163-165 | returns the history; being a value, the copy cannot change it |
| CommandExecution.CommandExecutor.ClearHistory | src/aws_adfs_gui/command_executor.py:167-169 | the history is empty afterwards |
| CommandExecution.CommandExecutor.RunBatch | src/aws_adfs_gui/command_executor.py:47-55 | the loop over a batch collects `Results` of the batch |
| CommandExecution.CommandExecutor.Partition | src/aws_adfs_gui/command_executor.py:34-43 | the loop fills exactly the dev and the other batch |
| CommandExecution.CommandExecutor.ExecuteCommand | src/aws_adfs_gui/command_executor.py:22-96 | the corrected executor yields `Plan`'s results and appends `Plan`'s entry to the bounded history |
| CommandExecution.ExecuteAsWritten | src/aws_adfs_gui/command_executor.py:22-96 | as written, with the recursion bounded by a depth: when a call finishes, it has yielded and collected at least the dev results of its own depth, and it records between one and `fuel + 1` history entries, the last with its own depth's id and start time and the number of successes it collected |
| CommandExecution.AsWrittenNeverFinishes | src/aws_adfs_gui/command_executor.py:85 | as written, the recursion only stops at a call whose dev batch fails: while the calls' own dev batches pass, no recursion depth is enough and nothing is recorded |
| CommandExecution.AsWrittenWithoutDevNeverFinishes | src/aws_adfs_gui/command_executor.py:33-85 | as written, a request naming no dev profile reaches no recursion depth at which it finishes, whatever each call runs |
| CommandExecution.AsWrittenAgreesOnFailFast | src/aws_adfs_gui/command_executor.py:57-72 | on the fail-fast path the code as written and the corrected `Plan` yield and record the same |
| AdfsAuth.BuildCommand | src/aws_adfs/adfs_auth.py:59-74 | the four fixed arguments, then "--env" at index 4 when env mode is on, and "--no-sspi" last when SSPI is off; each switch is present exactly under its option, and the length is 4 plus one per switch |
| AdfsAuth.FirstFiring | src/aws_adfs/adfs_auth.py:134-158 | the index of the first rule that fires; no earlier rule fires |
| AdfsAuth.FallbackMessage | src/aws_adfs/adfs_auth.py:159-162 | the stripped first line when that is non-empty, and "Unknown authentication error" exactly when it is empty; never empty |
| AdfsAuth.ParseErrorMessage | src/aws_adfs/adfs_auth.py:126-162 | empty output gives "Unknown error occurred"; otherwise the first rule that fires on the lower-cased output decides, else the fallback; never empty |
| AdfsAuth.RuleConditions | src/aws_adfs/adfs_auth.py:134-158 | each row of the rule table fires exactly under the condition of its branch, in source order |
| AdfsAuth.AnyOfOne | src/aws_adfs/adfs_auth.py:147 | a one-pattern row fires exactly when that pattern occurs |
| AdfsAuth.AnyOfTwo | src/aws_adfs/adfs_auth.py:134-137 | a two-pattern row fires exactly when either pattern occurs |
| AdfsAuth.FirstFiringIs | src/aws_adfs/adfs_auth.py:134-158 | a rule that fires with no earlier rule firing is the first that fires |
| AdfsAuth.FirstFiringRuleDecides | src/aws_adfs/adfs_auth.py:134-158 | first match wins: a rule that fires with no earlier rule firing decides the message |
| AdfsAuth.MatchingIgnoresCase | src/aws_adfs/adfs_auth.py:131 | outputs that lower-case alike and fire a rule get the same message |
| AdfsAuth.ExecuteOutcome | src/aws_adfs/adfs_auth.py:90-124 | success exactly on return code 0; the output on exit, the timeout text on a timeout, the not-installed text when the tool is absent, and "Command execution error: " with the error text on any other exception |
| AdfsAuth.AuthenticationOutcome | src/aws_adfs/adfs_auth.py:26-57 | success exactly when the process exited with 0; the three message forms for success, failure and exception |
| AdfsAuth.ADFSAuthenticator.constructor | src/aws_adfs/adfs_auth.py:13-14 | no profile is authenticated |
| AdfsAuth.ADFSAuthenticator.IsAuthenticated | src/aws_adfs/adfs_auth.py:164-166 | true exactly when the profile has an entry and its last attempt succeeded |
| AdfsAuth.ADFSAuthenticator.Authenticate | src/aws_adfs/adfs_auth.py:16-57 | returns `AuthenticationOutcome` and records its success under the request's profile only |
| AdfsAuth.ADFSAuthenticator.Logout | src/aws_adfs/adfs_auth.py:168-171 | removes only that profile; a no-op when it is absent |
| AdfsAuth.ADFSAuthenticator.LogoutAll | src/aws_adfs/adfs_auth.py:173-175 | the map is empty and no profile is authenticated |
| AdfsAuth.ADFSAuthenticator.TestCredentials | src/aws_adfs/adfs_auth.py:177-201 | authenticates "test-connection" with a 10-second timeout; afterwards that key is gone and no other key changed |
| AwsCredentials.StatusConfig | src/aws_adfs_gui/aws_credentials.py:24-55 | each status has a label, colour and icon, and a priority from 1 to 5, with 1 exactly for valid |
| AwsCredentials.StatusConfigDistinct | src/aws_adfs_gui/aws_credentials.py:17-55 | distinct statuses have distinct priorities and distinct stored values |
| AwsCredentials.StatusRecord | src/aws_adfs_gui/aws_credentials.py:218-232 | status, message and last_checked are the given ones, color and icon are the status's display entries, label and priority likewise, unless the extra information overrides them, being applied last |
| AwsCredentials.ProfileExistsInConfig | src/aws_adfs_gui/aws_credentials.py:144-164 | exists exactly when the name is a credentials section, or the name or "profile " + name is a config section; false with neither file; an unparsable file raises when it is read |
| AwsCredentials.Classify | src/aws_adfs_gui/aws_credentials.py:107-142 | unknown exactly when the existence check raised, with "Validation error for <name>: " and the exception text; missing exactly when the profile is in neither file, with "Profile '<name>' not found in ~/.aws configuration"; valid exactly when the probe succeeded, with "Credentials active for <name>"; expired on "ExpiredToken" or "TokenRefreshRequired", with the refresh message; otherwise invalid, with "Invalid credentials for <name>. Please re-authenticate." exactly when the error text holds "InvalidUserID.NotFound" or "AccessDenied", and "Credential validation failed for <name>: " followed by the error text for any other failure |
| AwsCredentials.NotFoundMessage | src/aws_adfs_gui/aws_credentials.py:109-112 | the missing-profile message contains "not found" |
| AwsCredentials.RaisedRecord | src/aws_adfs_gui/aws_credentials.py:84-91 | a raising task is stored as unknown, with the profile itself |
| AwsCredentials.RecordFor | src/aws_adfs_gui/aws_credentials.py:84-95 | a task that returned is stored as its record; one that raised is stored as `RaisedRecord` of its profile and exception |
| AwsCredentials.MergeResults | src/aws_adfs_gui/aws_credentials.py:83-95 | the keys afterwards are the keys before together with the name of every profile `zip` pairs with a task result |
| AwsCredentials.PairCount | src/aws_adfs_gui/aws_credentials.py:83 | `zip` pairs as many items as the shorter list holds |
| AwsCredentials.MergeKeepsUnpaired | src/aws_adfs_gui/aws_credentials.py:83-95 | entries of profiles not validated are left as they were, present or absent |
| AwsCredentials.MergeTakesLastPairing | src/aws_adfs_gui/aws_credentials.py:83-95 | a validated profile ends with the record of its last pairing |
| AwsCredentials.StatusBag | src/aws_adfs_gui/aws_credentials.py:252-253 | one status per entry of the status map |
| AwsCredentials.StatusBagRemove | src/aws_adfs_gui/aws_credentials.py:252-254 | removing any entry removes exactly its status from the multiset, so the count does not depend on the order entries are visited |
| AwsCredentials.CountTick | src/aws_adfs_gui/aws_credentials.py:254 | `summary[s] = summary.get(s, 0) + 1` raises that count by one and leaves the others |
| AwsCredentials.DefaultStatusRecord | src/aws_adfs_gui/aws_credentials.py:236-243 | the default is unknown with "Status not checked yet" |
| AwsCredentials.AWSCredentialsManager.constructor | src/aws_adfs_gui/aws_credentials.py:61-65 | the status map starts empty |
| AwsCredentials.AWSCredentialsManager.ValidateProfileCredentials | src/aws_adfs_gui/aws_credentials.py:97-142 | the record carries the classified status and message and every display key; identity fields only when valid |
| AwsCredentials.AWSCredentialsManager.ValidateAllProfiles | src/aws_adfs_gui/aws_credentials.py:67-95 | each task validates its own profile; the loop stores the merged records and returns the whole map; each paired profile ends with the record of its last pairing: `ValidateProfileCredentials` of its probe and identity when its validation returned, the unknown "Validation error" record when it raised |
| AwsCredentials.AWSCredentialsManager.GetProfileStatus | src/aws_adfs_gui/aws_credentials.py:234-243 | the stored entry, or the unknown default |
| AwsCredentials.AWSCredentialsManager.GetAllStatus | src/aws_adfs_gui/aws_credentials.py:245-247 | a copy of the status map |
| AwsCredentials.AWSCredentialsManager.GetStatusSummary | src/aws_adfs_gui/aws_credentials.py:249-255 | each count is the number of entries with that status, with a missing status counted as unknown; only statuses present are keys |
| AwsCredentials.Flag | src/aws_adfs_gui/aws_credentials.py:299-309 | the flag followed by the rendered value is added exactly when the value is truthy as Python judges it: null, false, 0 and "" add nothing |
| AwsCredentials.Rendered | src/aws_adfs_gui/aws_credentials.py:300-309 | an f-string writes a string as it is, an integer in decimal and a boolean as "True" or "False" |
| AwsCredentials.AdfsSwitches | src/aws_adfs_gui/aws_credentials.py:293-309 | "--env" and "--no-sspi" exactly when `env_mode` and `no_sspi` are truthy (so 0, "" or null switch them off as much as false does); each of region, output format, duration and assertion duration adds its flag and rendered value exactly when truthy (a duration of 0 adds nothing); the length is one per truthy option |
| AwsCredentials.BuildAwsAdfsCommand | src/aws_adfs_gui/aws_credentials.py:271-315 | four fixed arguments, the switches, then the custom arguments in the order given |
| AwsCredentials.AdfsDefaults | src/aws_adfs_gui/aws_credentials.py:261-269 | with default options only "--env" and "--no-sspi" are added |
| AwsCredentials.AdfsFlagOrder | src/aws_adfs_gui/aws_credentials.py:293-309 | for all options: each switch present sits at the index given by the number of switches present before it, in the order --env, --no-sspi, region, output format, duration, assertion duration |
| AwsCredentials.Pair | src/aws_adfs_gui/aws_credentials.py:335-342 | a flag and its value are added exactly when the value is given |
| AwsCredentials.CliCommand | src/aws_adfs_gui/aws_credentials.py:329-348 | "aws", the base command's words, "--profile" and the name, then exactly the region, output and endpoint pairs that are given, in that order, and the extra arguments last; the length counts each part |
| AwsCredentials.BuildAwsCliCommand | src/aws_adfs_gui/aws_credentials.py:317-348 | "aws", the words `split()` gives for the base command, then "--profile" and the name; the extra arguments last |
| AwsCredentials.CliCommandKeepsWords | src/aws_adfs_gui/aws_credentials.py:329 | a base command written as single-spaced words is passed on word for word |
| Protocol.RemoveFirstValue | src/aws_adfs_gui/web_app.py:62-63 | `remove` guarded by `in` drops one occurrence, if there is one |
| Protocol.RemoveFirstValueAt | src/aws_adfs_gui/web_app.py:62-63 | when the socket first occurs at index `i`, `remove` gives the list before `i` followed by the list after it: exactly the first occurrence goes and the order is kept |
| Protocol.RemoveOnlyOccurrence | src/aws_adfs_gui/web_app.py:62-63 | a socket connected once is gone after removal |
| Protocol.Dropped | src/aws_adfs_gui/web_app.py:66-68 | every profile keeps its key and loses only that socket |
| Protocol.DropSocket | src/aws_adfs/web_app.py:63-65 | the loop over the socket sets computes `Dropped` |
| Protocol.Addressed | src/aws_adfs_gui/web_app.py:78-85 | one copy of the message per socket, in connection order |
| GuiWebApp.RequestFor | src/aws_adfs_gui/web_app.py:129-145 | absent keys default to timeout 30, retries 3, SSPI off and env mode on |
| GuiWebApp.MissingSettingsAreDefaults | src/aws_adfs_gui/web_app.py:138-143 | with no setting given, the request carries the default `ConnectionSettings` |
| GuiWebApp.Path | src/aws_adfs_gui/web_app.py:100-192 | the branch taken: not configured, already authenticated, attempt, or no credentials, each under its exact condition |
| GuiWebApp.Supplied | src/aws_adfs_gui/web_app.py:129 | `if credentials:` holds exactly when a credentials dict was sent and it is not empty |
| GuiWebApp.Settle | src/aws_adfs_gui/web_app.py:100-192 | connected exactly when already authenticated or the attempt succeeded, with the branch's message |
| GuiWebApp.ConnectedOnlyWhenAuthenticated | src/aws_adfs_gui/web_app.py:115-170 | a profile is connected only when configured, and either already authenticated or its login exited with 0 |
| GuiWebApp.ExecuteReplies | src/aws_adfs_gui/web_app.py:444-488 | nothing for an empty command or empty profile list; otherwise one `command_error` per profile, with "Profile '…' not connected" for those not connected and the error raised by awaiting the executor for those connected |
| GuiWebApp.ExecuteReply | src/aws_adfs_gui/web_app.py:458-488 | one `command_error` about the profile: the error raised by awaiting the executor when the profile is connected, "Profile '<profile>' not connected" when it is not |
| GuiWebApp.ConnectionManager.constructor | src/aws_adfs_gui/web_app.py:50-53 | every collection starts empty |
| GuiWebApp.ConnectionManager.Connect | src/aws_adfs_gui/web_app.py:55-58 | appends the socket |
| GuiWebApp.ConnectionManager.Disconnect | src/aws_adfs_gui/web_app.py:60-68 | drops the socket from the list and from every profile's set; connected profiles unchanged |
| GuiWebApp.ConnectionManager.SendPersonalMessage | src/aws_adfs_gui/web_app.py:70-76 | appends one envelope |
| GuiWebApp.ConnectionManager.Broadcast | src/aws_adfs_gui/web_app.py:78-85 | sends the message to every active socket, in order |
| GuiWebApp.ConnectionManager.ConnectProfile | src/aws_adfs_gui/web_app.py:87-203 | registers the socket, sends "connecting" first, then the status of `Settle`; connected profiles and the authenticator change exactly as the branch says |
| GuiWebApp.ConnectionManager.SettleProfile | src/aws_adfs_gui/web_app.py:100-192 | the branches after "connecting" |
| GuiWebApp.ConnectionManager.DisconnectProfile | src/aws_adfs_gui/web_app.py:205-225 | the profile is no longer connected, the socket leaves its set, "disconnected" is broadcast, and the profile is logged out |
| GuiWebApp.ConnectionManager.DisconnectAll | src/aws_adfs_gui/web_app.py:227-231 | connected profiles, profile sockets and authentications are all empty |
| GuiWebApp.ConnectionManager.ConnectProfileAsWritten | src/aws_adfs_gui/web_app.py:87-203 | as written: registers the socket, sends "connecting", then "disconnected" with "Connection error: " and the `AttributeError` text; no profile is connected |
| GuiWebApp.ConfiguredAuthenticatedConnects | src/aws_adfs_gui/web_app.py:114-125 | with the lookup corrected, a configured profile that is already authenticated ends connected with "already authenticated" |
| GuiWebApp.ConnectionManager.HandleExecuteCommand | src/aws_adfs_gui/web_app.py:444-488 | the loop sends exactly `ExecuteReplies` |
| GuiWebApp.ConnectionManager.GetAuthStatus | src/aws_adfs_gui/web_app.py:330-342 | one entry per configured name with its authenticated and connected flags; connected count = number of connected profiles |
| LegacyWebApp.ResultReplies | src/aws_adfs/web_app.py:232-267 | at most three messages per yielded result |
| LegacyWebApp.ResultRepliesSnoc | src/aws_adfs/web_app.py:232-267 | one more result appends its replies |
| LegacyWebApp.ResultRepliesAddressed | src/aws_adfs/web_app.py:232-267 | every result message goes to the requesting socket and is about the requested profile |
| LegacyWebApp.ResultReply | src/aws_adfs/web_app.py:233-267 | nothing for another profile's result; otherwise one message, plus one for a non-empty output and one for a truthy error: the output first (not an error), the error next (an error), the completion with success and duration last; all to the requesting socket about the profile |
| LegacyWebApp.RaisedReplies | src/aws_adfs/web_app.py:269-288 | nothing unless the stream raised; then "Error: …" and a failed completion |
| LegacyWebApp.ExecuteReplies | src/aws_adfs/web_app.py:209-288 | the echo "$ " + command first, as output that is not an error; then the replies of every yielded result in order; then the failure report when the stream raised, and nothing else |
| LegacyWebApp.ExecuteRepliesShape | src/aws_adfs/web_app.py:209-288 | the echoed command comes first, the failure report last when the stream raised, and every reply is an output or completion about the profile |
| LegacyWebApp.ConnectionManager.constructor | src/aws_adfs/web_app.py:47-50 | every collection starts empty; connected profiles are registered |
| LegacyWebApp.ConnectionManager.Connect | src/aws_adfs/web_app.py:52-55 | appends the socket; connected profiles stay registered |
| LegacyWebApp.ConnectionManager.Disconnect | src/aws_adfs/web_app.py:57-65 | drops the socket everywhere, keeps every profile key and the connected profiles |
| LegacyWebApp.ConnectionManager.SendPersonalMessage | src/aws_adfs/web_app.py:67-73 | appends one envelope |
| LegacyWebApp.ConnectionManager.ConnectProfile | src/aws_adfs/web_app.py:84-119 | registers the socket, sends "connecting", then connects exactly when the profile is configured |
| LegacyWebApp.ConnectionManager.DisconnectProfile | src/aws_adfs/web_app.py:121-132 | discards the socket; the key and the connection go only when no socket is left; "disconnected" is always sent |
| LegacyWebApp.ConnectionManager.ExecuteCommand | src/aws_adfs/web_app.py:209-288 | sends exactly `ExecuteReplies` |
| LegacyWebApp.ConnectionManager.SendRaised | src/aws_adfs/web_app.py:269-288 | sends `RaisedReplies` |
| LegacyWebApp.ConnectionManager.SendResults | src/aws_adfs/web_app.py:232-267 | the loop sends `ResultReplies` |
| LegacyWebApp.ConnectionManager.SendResult | src/aws_adfs/web_app.py:233-267 | sends `ResultReply` |
| LegacyWebApp.ConnectionManager.HandleMessage | src/aws_adfs/web_app.py:197-297 | routes by type: connect and disconnect with a profile change the state and send as `ConnectProfile` and `DisconnectProfile` do; execute leaves the connections alone and sends `ExecuteReplies` when both profile and command are given, nothing otherwise; a missing profile does nothing; an unknown type gets "Unknown message type: …"; the invariant holds |
| LegacyWebApp.CsvRows | src/aws_adfs/web_app.py:318-323 | one row per result, in order |
| LegacyWebApp.CsvRow | src/aws_adfs/web_app.py:321-322 | a row starts with the profile between double quotes and a comma, and ends with the duration as `repr` writes it, unquoted |
| LegacyWebApp.TxtBlock | src/aws_adfs/web_app.py:329-336 | the profile, success and duration (two decimals, then "s") lines; then "Output:" with the output exactly when it is non-empty, "Error:" with the error exactly when it is truthy; fifty dashes last |
| LegacyWebApp.TxtLines | src/aws_adfs/web_app.py:327-336 | at least four lines per result |
| LegacyWebApp.Exported | src/aws_adfs/web_app.py:313-340 | HTTP 400 exactly for formats other than json, csv and txt; json returns the results in order |
| LegacyWebApp.ExportResults | src/aws_adfs/web_app.py:308-340 | returns `Exported` |
| LegacyWebApp.CollectCsvLines | src/aws_adfs/web_app.py:317-323 | the header, then one row per result |
| LegacyWebApp.CollectTextLines | src/aws_adfs/web_app.py:327-336 | the text blocks in order |
| LegacyWebApp.ReadQuoted | src/aws_adfs/web_app.py:322 | reading a quoted field consumes input |
| LegacyWebApp.ReadEscaped | src/aws_adfs/web_app.py:319-322 | an escaped field followed by its closing quote reads back as the original text |
| LegacyWebApp.ReadFieldEscaped | src/aws_adfs/web_app.py:319-322 | a quoted field and its comma read back as the field |
| LegacyWebApp.EscapeWithoutQuotes | src/aws_adfs/web_app.py:319-320 | escaping changes nothing in a text without double quotes |
| LegacyWebApp.ParseEscapedRow | src/aws_adfs/web_app.py:322 | four quoted fields and a trailing one read back as the fields |
| LegacyWebApp.CsvRowRoundTrip | src/aws_adfs/web_app.py:317-323 | a CSV row reads back as its fields: output and error exactly, whatever quotes they hold |
| ProfileRegistry.Groups | src/aws_adfs/config.py:131 | the dict's keys in order |
| ProfileRegistry.IndexOfGroup | src/aws_adfs/config.py:124 | the position of a key, or the length when absent |
| ProfileRegistry.AllProfiles | src/aws_adfs/config.py:109-111 | the flattened list holds as many profiles as all the groups together |
| ProfileRegistry.ProfileNames | src/aws_adfs/config.py:107-112 | `get_profile_names` returns one name per profile of every group |
| ProfileRegistry.LoadedGroups | src/aws_adfs/config.py:85-96 | a saved file gives the table it holds; a file that is not valid JSON, or no file, gives the default profiles, whose keys are distinct |
| ProfileRegistry.ProfileNamesCount | src/aws_adfs/config.py:107-112 | one name per profile: the length is the total profile count |
| ProfileRegistry.AllProfilesAppend | src/aws_adfs/config.py:110-111 | flattening distributes over concatenation |
| ProfileRegistry.AllProfilesSplit | src/aws_adfs/config.py:110-111 | the flat list is the groups before, the group, and the groups after |
| ProfileRegistry.FirstIndexNamed | src/aws_adfs/config.py:116-119 | the first index holding the name, or the length |
| ProfileRegistry.NamedIffFound | src/aws_adfs/config.py:116-119 | the name occurs exactly when the search finds it |
| ProfileRegistry.FirstIndexNamedAppend | src/aws_adfs/config.py:116-119 | the search over a concatenation looks in the second part only when the first lacks the name |
| ProfileRegistry.FindByName | src/aws_adfs/config.py:114-120 | `None` exactly when no profile has the name; otherwise the first profile in group then list order with that name |
| ProfileRegistry.AddProfileSpec | src/aws_adfs/config.py:122-127 | keys stay distinct, the profile goes last in its group (created when missing), other groups are unchanged, and its name becomes known |
| ProfileRegistry.AddKeepsOtherGroups | src/aws_adfs/config.py:122-126 | other groups are unchanged |
| ProfileRegistry.AddAppendsToExistingGroup | src/aws_adfs/config.py:126 | an existing group's list gains the profile at its end |
| ProfileRegistry.AddAppendsNewGroup | src/aws_adfs/config.py:124-126 | a missing group is created holding just the profile |
| ProfileRegistry.Delete | src/aws_adfs/config.py:135 | `pop(i)` shortens by one |
| ProfileRegistry.Add | src/aws_adfs/config.py:122-127 | a new key is appended only when the group is absent; every existing key stays in place; the group's entry holds its old list followed by the profile |
| ProfileRegistry.RemoveFirst | src/aws_adfs/config.py:129-138 | the table keeps its number of groups, and is unchanged when nothing was removed |
| ProfileRegistry.RemoveFirstSpec | src/aws_adfs/config.py:129-138 | removal succeeds exactly when some profile has the name; otherwise nothing changes; the keys never change |
| ProfileRegistry.RemoveFirstDeletes | src/aws_adfs/config.py:129-138 | a removal deletes the first profile with the name from the flattened list, and nothing else |
| ProfileRegistry.RemoveInFirstGroup | src/aws_adfs/config.py:133-137 | the removal when the first group holds the name |
| ProfileRegistry.RemoveInLaterGroup | src/aws_adfs/config.py:131-137 | the removal when a later group holds the name |
| ProfileRegistry.NothingToRemove | src/aws_adfs/config.py:138 | no match changes nothing |
| ProfileRegistry.RemoveFoundAt | src/aws_adfs/config.py:131-137 | the nested search's first match is the one `RemoveFirst` removes |
| ProfileRegistry.FoundAt | src/aws_adfs/config.py:116-119 | the nested search's first match is `FindByName`'s answer |
| ProfileRegistry.DefaultProfilesShape | src/aws_adfs/config.py:26-81 | the defaults have distinct keys and 2 dev, 3 np and 3 pd profiles, each in its own group |
| ProfileRegistry.Config.constructor | src/aws_adfs/config.py:13-83 | loads the file; a missing one is created with the defaults |
| ProfileRegistry.Config.LoadConfig | src/aws_adfs/config.py:85-96 | a saved file is read; one that is not valid JSON gives the defaults without saving; a missing one gives the defaults and saves them |
| ProfileRegistry.Config.SaveConfig | src/aws_adfs/config.py:98-101 | the file holds the registry |
| ProfileRegistry.Config.GetProfileNames | src/aws_adfs/config.py:107-112 | the loop collects the names in group, then list, order |
| ProfileRegistry.Config.GetProfileByName | src/aws_adfs/config.py:114-120 | the nested loop returns `FindByName` |
| ProfileRegistry.Config.AddProfile | src/aws_adfs/config.py:122-127 | the registry becomes `Add` of the old one, and is saved |
| ProfileRegistry.Config.RemoveProfile | src/aws_adfs/config.py:129-138 | returns and applies `RemoveFirst`; saves only when it removed; keys stay distinct |
| GuiConfig.DefaultConfigWellFormed | src/aws_adfs_gui/config.py:11-18 | the defaults are within bounds: "aws s3 ls", 100, 30, "us-east-1" |
| GuiConfig.EncodeGroups | src/aws_adfs_gui/config.py:116-118 | each group key becomes its string value, lists unchanged, order kept |
| GuiConfig.Encode | src/aws_adfs_gui/config.py:113-129 | the stored object has a "profiles" entry with one key per group, in order, each the group's string value with the group's list unchanged, and "default_command", "max_history", "timeout" and "default_region" set to the configuration's values |
| GuiConfig.Put | src/aws_adfs_gui/config.py:100 | `d[g] = ps` replaces or adds the key's list and changes no other key |
| GuiConfig.DecodeGroups | src/aws_adfs_gui/config.py:97-100 | a decoded table has distinct keys |
| GuiConfig.DecodeGroupsSpec | src/aws_adfs_gui/config.py:98-99 | decoding succeeds exactly when every key names a group; otherwise the error names a key that does not |
| GuiConfig.Decode | src/aws_adfs_gui/config.py:96-108 | absent scalars take "aws s3 ls", 100, 30 and "us-east-1"; success needs every key valid and the bounds kept |
| GuiConfig.DecodeEncodeGroups | src/aws_adfs_gui/config.py:97-118 | decoding the encoded keys gives the same table back |
| GuiConfig.DecodeEncode | src/aws_adfs_gui/config.py:87-129 | saving then loading a well-formed configuration gives it back |
| GuiConfig.Loaded | src/aws_adfs_gui/config.py:87-111 | the loaded configuration is well formed; it is the default one when the file is missing or does not decode, and otherwise exactly what the file decodes to |
| GuiConfig.LoadSaved | src/aws_adfs_gui/config.py:87-129 | loading the file that saving a well-formed configuration writes does not fall back, and gives that configuration |
| GuiConfig.DecodeGroupsFailsOnPrefix | src/aws_adfs_gui/config.py:98-99 | a key that fails makes the whole decoding fail |
| GuiConfig.AllProfilesLength | src/aws_adfs_gui/config.py:142-148 | the flattened list's length is the sum of the list lengths |
| GuiConfig.ConfigManager.constructor | src/aws_adfs_gui/config.py:24-27 | the manager holds the given file |
| GuiConfig.ConfigManager.SaveConfig | src/aws_adfs_gui/config.py:113-129 | the file holds `Encode` of the configuration |
| GuiConfig.ConfigManager.CreateDefaultConfig | src/aws_adfs_gui/config.py:131-135 | returns and saves the default configuration |
| GuiConfig.ConfigManager.LoadConfig | src/aws_adfs_gui/config.py:87-111 | returns `Loaded` of the file; the default configuration is saved exactly on fallback |
| GuiConfig.ConfigManager.GetProfilesByGroup | src/aws_adfs_gui/config.py:137-140 | reloads the file, then returns the group's list, [] for an absent group |
| GuiConfig.ConfigManager.GetAllProfiles | src/aws_adfs_gui/config.py:142-148 | reloads the file, then returns the concatenation of the lists in group order |

## Left out

- Subprocesses, `asyncio` and timeouts are left out. Process outcomes, login runs and probe results are parameters (`Execution`, `LoginRun`, `CliResult`, `TaskOutcome`).
- `asyncio.as_completed` yields results in completion order. The model takes them in request order.
- Clocks, `uuid4` and durations are parameters. Timestamps and ids are strings, and durations are `real`.
- Float formatting (`{duration}` and `:.2f`) is a parameter: `repr` and `fixed2` in the export.
- Python's `str.lower`, `strip`, `split` and `isspace` are modelled on ASCII only. There is no Unicode case folding or Unicode white space.
- `src/aws_adfs_gui/secure_config.py` is not part of this model. It is cryptography and file I/O.
- Sockets are left out. `send_text` failures and the `disconnect` they trigger are not modelled: every send succeeds. The same goes for the removal during iteration in `broadcast`.
- FastAPI routes, CORS, static files, uvicorn and both `main()` functions are left out.
- JSON and INI file I/O is left out. A file is a datatype of its possible contents, and profile records in it are taken as already parsed.
- Pydantic validation of field types is left out. The only validation modelled is the bounds of `ConfigModel`.
- ProfileRegistry.Config.LoadConfig: valid JSON that `ProfileGroups` rejects (a group key such as `"qa"`) makes `ProfileGroups(**data)` raise a pydantic `ValidationError`, which the `except` of src/aws_adfs/config.py:92 does not catch. `load_config`, and the constructor, then raise. The model has no such file: a `Saved` file always holds a profile-groups object.
- `_test_aws_credentials` and `_parse_credentials_info` are left out. Their results are the `cli` and `identity` parameters.
- The `get_profile_by_name` and `get_profile_names` calls on a `ConfigManager`, which lacks them (src/aws_adfs_gui/command_executor.py:39, src/aws_adfs_gui/web_app.py:102, src/aws_adfs_gui/web_app.py:333), become a lookup function and a list of configured names passed in.
- GuiWebApp.ConnectionManager.GetAuthStatus: models the endpoint with the list of configured names given. As written, `config.get_profile_names()` at src/aws_adfs_gui/web_app.py:333 raises `AttributeError`, so the endpoint answers with a server error.
- The authentication types that src/aws_adfs/adfs_auth.py:7 imports are taken from src/aws_adfs_gui/models.py:69-92.
- GuiWebApp.ConnectionManager.ConnectProfile: models `connect_profile` with the list of configured names given, as evidently intended. As written, `config.get_profile_names()` at src/aws_adfs_gui/web_app.py:102 raises `AttributeError`, the `except Exception` at src/aws_adfs_gui/web_app.py:194 catches it, and every call sends "connecting" and then "disconnected" with "Connection error: …". `ConnectProfileAsWritten` models that, and "## Findings" records it.
- The inner "Authentication error" `except` of `connect_profile` (src/aws_adfs_gui/web_app.py:172-181) is not modelled: `authenticate` catches everything itself, and the only other raise would be pydantic validation.
- The catch-all `except` of both WebSocket endpoints is not modelled.
- GuiWebApp.ConnectionManager.HandleExecuteCommand: awaiting the executor's async generator (src/aws_adfs_gui/web_app.py:461) always raises. The model therefore sends `command_error` for every connected profile, with the raised text as the parameter `awaitError`. The `command_result` branch is never reached.
- The other message types of the newer endpoint (credential validation and the rest) are left out.
- CommandExecution.PlanFailFast: follows the code. The comment at src/aws_adfs_gui/command_executor.py:57 says "Check if any dev profiles failed", and the code at :60 stops the run when any dev result failed; the model stops exactly then.
- AdfsAuth.ParseErrorMessage: states which rule decides. It does not state which messages are distinct.
- LegacyWebApp.CsvRowRoundTrip: requires a profile without double quotes. Profile and success are written unescaped, so a quote in the profile does not read back.
- CommandExecution.ExecuteAsWritten: bounded by `fuel`, because the recursion of line 85 does not terminate. The fuel stands for the depth of that recursion. Each depth takes its own runs, id and start time, but the same profile lookup: the configuration is taken not to change while the recursion runs.
- CommandExecution.AsWrittenNeverFinishes: states that no finite recursion depth is enough. What Python then does is not modelled: CPython would plausibly end the chain of nested generators with a `RecursionError`, but nothing here shows it.
- `retries` in `ConnectionSettings` is carried but never used, as in the source.
- The options of `build_aws_adfs_command` (`AdfsOptions`) are null, booleans, whole numbers or strings, with Python truthiness. Floats, lists and dicts as option values, and `custom_args` given as anything other than a list of strings, are not modelled.
- The options of `build_aws_cli_command` (`CliOptions`) are absent or strings: the source puts the value itself into the argument list, and only a string can stand there. Other value types are not modelled.

## Findings

| source | as written | input that shows it | evidently intended | confidence | as-written member | corrected member |
|---|---|---|---|---|---|---|
| src/aws_adfs_gui/command_executor.py:85 | after the other profiles ran, the generator collects `self.execute_command(request)`, a recursive call on the same request | any request naming no dev profile, e.g. profiles `[]` or only non-dev profiles: every call recurses again, so no recursion depth is enough and no history entry is recorded (CPython would plausibly stop with `RecursionError`) | count the results this call already collected (dev and other) and record one entry | not executed | CommandExecution.AsWrittenWithoutDevNeverFinishes | CommandExecution.CommandExecutor.ExecuteCommand |
| src/aws_adfs_gui/web_app.py:102 | `connect_profile` checks the profile against `config.get_profile_names()`, a method `ConfigManager` does not have | any `connect_profile` message, e.g. for a configured profile that is already authenticated: the `AttributeError` is caught at :194 and the client gets "disconnected" with "Connection error: 'ConfigManager' object has no attribute 'get_profile_names'" | check the profile against the configured names, then connect an authenticated profile or authenticate it | not executed | GuiWebApp.ConnectionManager.ConnectProfileAsWritten | GuiWebApp.ConnectionManager.ConnectProfile |
