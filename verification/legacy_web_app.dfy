/**
 * The older web application, src/aws_adfs/web_app.py: its
 * `ConnectionManager` (which connects any configured profile without
 * authenticating it), the routing of WebSocket messages, and the export of
 * command results as JSON, CSV or plain text. Sockets are ids and sends
 * append to `outbox`; the configured names, the results the executor yields
 * and the float formatting of durations are parameters.
 */
module LegacyWebApp {
  import opened Wrappers
  import opened Text
  import opened Models
  import opened Protocol

  /** A received message: its `type`, `profile` and `command` keys, each possibly absent. */
  datatype Incoming = Incoming(kind: Option<string>, profile: Option<string> := None, command: Option<string> := None)

  /** What iterating the executor's result stream gives: the results yielded, then possibly an exception. */
  datatype Stream = Stream(yielded: seq<CommandResult>, raised: Option<string>)

  /** Python's `f"{message_type}"` for a `type` key that may be absent. */
  function KindText(kind: Option<string>): string {
    kind.GetOr("None")
  }

  /** An output or completion message about the profile, sent to the socket. */
  predicate ResultMessage(e: Envelope, ws: SocketId, profile: string) {
    e.to == ws && (e.msg.CommandOutput? || e.msg.CommandComplete?) && e.msg.profile == profile
  }

  /** The messages sent for the results of the requested profile, in the order they are yielded. */
  function ResultReplies(ws: SocketId, profile: string, results: seq<CommandResult>): (r: seq<Envelope>)
    ensures |r| <= 3 * |results|
    decreases |results|
  {
    if results == [] then []
    else
      var front := results[..|results| - 1];
      ResultReplies(ws, profile, front) + ResultReply(ws, profile, results[|results| - 1])
  }

  /** One more result appends its replies. */
  lemma ResultRepliesSnoc(ws: SocketId, profile: string, results: seq<CommandResult>, i: nat)
    requires i < |results|
    ensures ResultReplies(ws, profile, results[..i + 1])
         == ResultReplies(ws, profile, results[..i]) + ResultReply(ws, profile, results[i])
  {
    assert results[..i + 1][..i] == results[..i];
  }

  /** Every result message goes to the requesting socket and is about the requested profile. */
  lemma {:induction false} ResultRepliesAddressed(ws: SocketId, profile: string, results: seq<CommandResult>)
    ensures forall i :: 0 <= i < |ResultReplies(ws, profile, results)| ==>
              ResultMessage(ResultReplies(ws, profile, results)[i], ws, profile)
  {
    if results != [] {
      var front := ResultReplies(ws, profile, results[..|results| - 1]);
      var last := ResultReply(ws, profile, results[|results| - 1]);
      ResultRepliesAddressed(ws, profile, results[..|results| - 1]);
      assert ResultReplies(ws, profile, results) == front + last;
      forall i | 0 <= i < |front + last|
        ensures ResultMessage((front + last)[i], ws, profile)
      {
        if i < |front| {
          assert (front + last)[i] == front[i];
        } else {
          assert (front + last)[i] == last[i - |front|];
        }
      }
    }
  }

  /** For one yielded result: its output, its error, then its completion; nothing for another profile's result. */
  function ResultReply(ws: SocketId, profile: string, result: CommandResult): (r: seq<Envelope>)
    ensures result.profile != profile ==> r == []
    ensures result.profile == profile ==>
      |r| == 1 + (if result.output != [] then 1 else 0) + (if Truthy(result.error) then 1 else 0)
    ensures result.profile == profile && result.output != [] ==>
      r[0] == Envelope(ws, CommandOutput(profile, result.output, false))
    ensures result.profile == profile && Truthy(result.error) ==>
      r[|r| - 2] == Envelope(ws, CommandOutput(profile, result.error.value, true))
    ensures result.profile == profile ==> r[|r| - 1] == Envelope(ws, CommandComplete(profile, result.success, result.duration))
    ensures forall i :: 0 <= i < |r| ==> ResultMessage(r[i], ws, profile)
    ensures |r| <= 3
  {
    if result.profile != profile then []
    else
      (if result.output != [] then [Envelope(ws, CommandOutput(profile, result.output, false))] else [])
      + (if Truthy(result.error) then [Envelope(ws, CommandOutput(profile, result.error.value, true))] else [])
      + [Envelope(ws, CommandComplete(profile, result.success, result.duration))]
  }

  /** The failure report sent when the result stream raised: the error text, then a failed completion. */
  function RaisedReplies(ws: SocketId, profile: string, raised: Option<string>): (r: seq<Envelope>)
    ensures raised.None? <==> r == []
    ensures raised.Some? ==> r == [Envelope(ws, CommandOutput(profile, "Error: " + raised.value, true)),
                                   Envelope(ws, CommandComplete(profile, false, 0.0))]
  {
    if raised.Some?
    then [Envelope(ws, CommandOutput(profile, "Error: " + raised.value, true)),
          Envelope(ws, CommandComplete(profile, false, 0.0))]
    else []
  }

  /** The replies to `execute_command` for one profile: the echoed command, the result messages, and the failure report if the stream raised. */
  function ExecuteReplies(ws: SocketId, profile: string, command: string, stream: Stream): (r: seq<Envelope>)
    ensures |r| == 1 + |ResultReplies(ws, profile, stream.yielded)| + |RaisedReplies(ws, profile, stream.raised)|
    ensures r[0] == Envelope(ws, CommandOutput(profile, "$ " + command, false))
    ensures r[1..1 + |ResultReplies(ws, profile, stream.yielded)|] == ResultReplies(ws, profile, stream.yielded)
    ensures r[1 + |ResultReplies(ws, profile, stream.yielded)|..] == RaisedReplies(ws, profile, stream.raised)
  {
    [Envelope(ws, CommandOutput(profile, "$ " + command, false))]
    + ResultReplies(ws, profile, stream.yielded)
    + RaisedReplies(ws, profile, stream.raised)
  }

  /**
   * The replies to `execute_command` start with the echoed command, end with
   * the failure report when the stream raised, and are all output or
   * completion messages about the profile, sent to the requesting socket.
   */
  lemma ExecuteRepliesShape(ws: SocketId, profile: string, command: string, stream: Stream)
    ensures |ExecuteReplies(ws, profile, command, stream)| >= 1
    ensures ExecuteReplies(ws, profile, command, stream)[0] == Envelope(ws, CommandOutput(profile, "$ " + command, false))
    ensures stream.raised.Some? ==>
      (|ExecuteReplies(ws, profile, command, stream)| >= 3
       && ExecuteReplies(ws, profile, command, stream)[|ExecuteReplies(ws, profile, command, stream)| - 2..]
          == [Envelope(ws, CommandOutput(profile, "Error: " + stream.raised.value, true)),
              Envelope(ws, CommandComplete(profile, false, 0.0))])
    ensures forall i :: 0 <= i < |ExecuteReplies(ws, profile, command, stream)| ==>
              ResultMessage(ExecuteReplies(ws, profile, command, stream)[i], ws, profile)
  {
    var head := [Envelope(ws, CommandOutput(profile, "$ " + command, false))];
    var middle := ResultReplies(ws, profile, stream.yielded);
    var tail := RaisedReplies(ws, profile, stream.raised);
    ResultRepliesAddressed(ws, profile, stream.yielded);
    assert ExecuteReplies(ws, profile, command, stream) == head + middle + tail;
    if stream.raised.Some? {
      assert (head + middle + tail)[|head + middle + tail| - 2..] == tail;
    }
    forall i | 0 <= i < |head + middle + tail|
      ensures ResultMessage((head + middle + tail)[i], ws, profile)
    {
      if i == 0 {
        assert (head + middle + tail)[i] == head[0];
      } else if i < 1 + |middle| {
        assert (head + middle + tail)[i] == middle[i - 1];
      } else {
        assert (head + middle + tail)[i] == tail[i - 1 - |middle|];
      }
    }
  }

  class ConnectionManager {
    var activeConnections: seq<SocketId>
    var connectedProfiles: set<string>
    var profileConnections: map<string, set<SocketId>>
    var outbox: seq<Envelope>

    /** A connected profile always has an entry in `profile_connections`. */
    predicate Valid()
      reads this
    {
      connectedProfiles <= profileConnections.Keys
    }

    constructor ()
      ensures Valid()
      ensures activeConnections == [] && connectedProfiles == {} && profileConnections == map[] && outbox == []
    {
      activeConnections := [];
      connectedProfiles := {};
      profileConnections := map[];
      outbox := [];
    }

    method Connect(ws: SocketId)
      requires Valid()
      modifies this
      ensures Valid()
      ensures activeConnections == old(activeConnections) + [ws]
      ensures connectedProfiles == old(connectedProfiles) && profileConnections == old(profileConnections)
      ensures outbox == old(outbox)
    {
      activeConnections := activeConnections + [ws];
    }

    /** Forgets a socket everywhere; the profile entries and the connected profiles stay. */
    method Disconnect(ws: SocketId)
      requires Valid()
      modifies this
      ensures Valid()
      ensures activeConnections == RemoveFirstValue(old(activeConnections), ws)
      ensures profileConnections == Dropped(old(profileConnections), ws)
      ensures connectedProfiles == old(connectedProfiles) && outbox == old(outbox)
    {
      var remaining := RemoveFirstValue(activeConnections, ws);
      var dropped := DropSocket(profileConnections, ws);
      activeConnections := remaining;
      profileConnections := dropped;
    }

    method SendPersonalMessage(msg: Message, ws: SocketId)
      requires Valid()
      modifies this
      ensures Valid()
      ensures outbox == old(outbox) + [Envelope(ws, msg)]
      ensures activeConnections == old(activeConnections) && connectedProfiles == old(connectedProfiles)
      ensures profileConnections == old(profileConnections)
    {
      outbox := outbox + [Envelope(ws, msg)];
    }

    /** Registers the socket, reports `connecting`, then connects the profile exactly when it is configured. */
    method ConnectProfile(profile: string, ws: SocketId, configured: seq<string>)
      requires Valid()
      modifies this
      ensures Valid()
      ensures profileConnections
           == old(profileConnections)[profile := (if profile in old(profileConnections)
                                                  then old(profileConnections)[profile] else {}) + {ws}]
      ensures connectedProfiles == if profile in configured then old(connectedProfiles) + {profile}
                                   else old(connectedProfiles)
      ensures outbox == old(outbox) + [Envelope(ws, ConnectionStatus(profile, Connecting, None)),
                                       Envelope(ws, ConnectionStatus(profile, if profile in configured then Connected
                                                                             else Disconnected, None))]
      ensures activeConnections == old(activeConnections)
    {
      var sockets := if profile in profileConnections then profileConnections[profile] else {};
      profileConnections := profileConnections[profile := sockets + {ws}];
      SendPersonalMessage(ConnectionStatus(profile, Connecting, None), ws);
      if profile in configured {
        connectedProfiles := connectedProfiles + {profile};
        SendPersonalMessage(ConnectionStatus(profile, Connected, None), ws);
      } else {
        SendPersonalMessage(ConnectionStatus(profile, Disconnected, None), ws);
      }
    }

    /**
     * Drops the socket from the profile's set; the profile's entry, and its
     * connection, go only when no socket is left. The requesting socket is
     * told `disconnected` in every case.
     */
    method DisconnectProfile(profile: string, ws: SocketId)
      requires Valid()
      modifies this
      ensures Valid()
      ensures profile !in old(profileConnections) ==>
        profileConnections == old(profileConnections) && connectedProfiles == old(connectedProfiles)
      ensures profile in old(profileConnections) && old(profileConnections)[profile] - {ws} != {} ==>
        profileConnections == old(profileConnections)[profile := old(profileConnections)[profile] - {ws}]
        && connectedProfiles == old(connectedProfiles)
      ensures profile in old(profileConnections) && old(profileConnections)[profile] - {ws} == {} ==>
        profileConnections == old(profileConnections) - {profile}
        && connectedProfiles == old(connectedProfiles) - {profile}
      ensures outbox == old(outbox) + [Envelope(ws, ConnectionStatus(profile, Disconnected, None))]
      ensures activeConnections == old(activeConnections)
    {
      if profile in profileConnections {
        var left := profileConnections[profile] - {ws};
        profileConnections := profileConnections[profile := left];
        if left == {} {
          profileConnections := profileConnections - {profile};
          connectedProfiles := connectedProfiles - {profile};
        }
      }
      SendPersonalMessage(ConnectionStatus(profile, Disconnected, None), ws);
    }

    /** The `execute_command` branch for a profile and command that are both given. */
    method ExecuteCommand(ws: SocketId, profile: string, command: string, stream: Stream)
      requires Valid()
      modifies this
      ensures Valid()
      ensures outbox == old(outbox) + ExecuteReplies(ws, profile, command, stream)
      ensures activeConnections == old(activeConnections) && connectedProfiles == old(connectedProfiles)
      ensures profileConnections == old(profileConnections)
    {
      ghost var start := outbox;
      SendPersonalMessage(CommandOutput(profile, "$ " + command, false), ws);
      SendResults(ws, profile, stream.yielded);
      SendRaised(ws, profile, stream.raised);
      ghost var echo := [Envelope(ws, CommandOutput(profile, "$ " + command, false))];
      ghost var results := ResultReplies(ws, profile, stream.yielded);
      assert start + echo + results + RaisedReplies(ws, profile, stream.raised)
          == start + (echo + results + RaisedReplies(ws, profile, stream.raised));
    }

    /** The `except` branch: the error and a failed completion, when the stream raised. */
    method SendRaised(ws: SocketId, profile: string, raised: Option<string>)
      requires Valid()
      modifies this
      ensures Valid()
      ensures outbox == old(outbox) + RaisedReplies(ws, profile, raised)
      ensures activeConnections == old(activeConnections) && connectedProfiles == old(connectedProfiles)
      ensures profileConnections == old(profileConnections)
    {
      if raised.Some? {
        SendPersonalMessage(CommandOutput(profile, "Error: " + raised.value, true), ws);
        SendPersonalMessage(CommandComplete(profile, false, 0.0), ws);
      }
    }

    /** The `async for` loop over the yielded results. */
    method SendResults(ws: SocketId, profile: string, results: seq<CommandResult>)
      requires Valid()
      modifies this
      ensures Valid()
      ensures outbox == old(outbox) + ResultReplies(ws, profile, results)
      ensures activeConnections == old(activeConnections) && connectedProfiles == old(connectedProfiles)
      ensures profileConnections == old(profileConnections)
    {
      var i := 0;
      while i < |results|
        invariant 0 <= i <= |results|
        invariant Valid()
        invariant outbox == old(outbox) + ResultReplies(ws, profile, results[..i])
        invariant activeConnections == old(activeConnections) && connectedProfiles == old(connectedProfiles)
        invariant profileConnections == old(profileConnections)
      {
        ghost var sent := ResultReplies(ws, profile, results[..i]);
        ghost var reply := ResultReply(ws, profile, results[i]);
        ResultRepliesSnoc(ws, profile, results, i);
        SendResult(ws, profile, results[i]);
        ConcatAssoc(old(outbox), sent, reply);
        i := i + 1;
      }
      assert results[..i] == results;
    }

    /** The body of the `async for` loop for one yielded result. */
    method SendResult(ws: SocketId, profile: string, result: CommandResult)
      requires Valid()
      modifies this
      ensures Valid()
      ensures outbox == old(outbox) + ResultReply(ws, profile, result)
      ensures activeConnections == old(activeConnections) && connectedProfiles == old(connectedProfiles)
      ensures profileConnections == old(profileConnections)
    {
      if result.profile == profile {
        if result.output != [] {
          SendPersonalMessage(CommandOutput(profile, result.output, false), ws);
        }
        if Truthy(result.error) {
          SendPersonalMessage(CommandOutput(profile, result.error.value, true), ws);
        }
        SendPersonalMessage(CommandComplete(profile, result.success, result.duration), ws);
      }
    }

    /**
     * The routing of the WebSocket endpoint: connect and disconnect need a
     * profile, execution a profile and a command, and any other type is
     * answered with an error naming it.
     */
    method HandleMessage(ws: SocketId, m: Incoming, configured: seq<string>, stream: Stream)
      requires Valid()
      modifies this
      ensures Valid()
      ensures m.kind == Some("connect_profile") && Truthy(m.profile) ==>
        var p := m.profile.value;
        && profileConnections
           == old(profileConnections)[p := (if p in old(profileConnections) then old(profileConnections)[p] else {}) + {ws}]
        && connectedProfiles == (if p in configured then old(connectedProfiles) + {p} else old(connectedProfiles))
        && outbox == old(outbox) + [Envelope(ws, ConnectionStatus(p, Connecting, None)),
                                    Envelope(ws, ConnectionStatus(p, if p in configured then Connected else Disconnected, None))]
      ensures m.kind == Some("disconnect_profile") && Truthy(m.profile) ==>
        var p := m.profile.value;
        && outbox == old(outbox) + [Envelope(ws, ConnectionStatus(p, Disconnected, None))]
        && (p !in old(profileConnections) ==>
              profileConnections == old(profileConnections) && connectedProfiles == old(connectedProfiles))
        && (p in old(profileConnections) && old(profileConnections)[p] - {ws} != {} ==>
              profileConnections == old(profileConnections)[p := old(profileConnections)[p] - {ws}]
              && connectedProfiles == old(connectedProfiles))
        && (p in old(profileConnections) && old(profileConnections)[p] - {ws} == {} ==>
              profileConnections == old(profileConnections) - {p}
              && connectedProfiles == old(connectedProfiles) - {p})
      ensures m.kind == Some("execute_command") ==>
        profileConnections == old(profileConnections) && connectedProfiles == old(connectedProfiles)
      ensures m.kind == Some("execute_command") && Truthy(m.profile) && Truthy(m.command) ==>
        outbox == old(outbox) + ExecuteReplies(ws, m.profile.value, m.command.value, stream)
      ensures m.kind == Some("execute_command") && !(Truthy(m.profile) && Truthy(m.command)) ==>
        outbox == old(outbox)
      ensures m.kind !in {Some("connect_profile"), Some("disconnect_profile"), Some("execute_command")} ==>
        outbox == old(outbox) + [Envelope(ws, ErrorNotice("Unknown message type: " + KindText(m.kind)))]
        && profileConnections == old(profileConnections) && connectedProfiles == old(connectedProfiles)
      ensures m.kind in {Some("connect_profile"), Some("disconnect_profile"), Some("execute_command")} && !Truthy(m.profile) ==>
        outbox == old(outbox) && profileConnections == old(profileConnections)
        && connectedProfiles == old(connectedProfiles)
      ensures activeConnections == old(activeConnections)
    {
      if m.kind == Some("connect_profile") {
        if Truthy(m.profile) {
          ConnectProfile(m.profile.value, ws, configured);
        }
      } else if m.kind == Some("disconnect_profile") {
        if Truthy(m.profile) {
          DisconnectProfile(m.profile.value, ws);
        }
      } else if m.kind == Some("execute_command") {
        if Truthy(m.profile) && Truthy(m.command) {
          ExecuteCommand(ws, m.profile.value, m.command.value, stream);
        }
      } else {
        SendPersonalMessage(ErrorNotice("Unknown message type: " + KindText(m.kind)), ws);
      }
    }
  }

  /** The reply of the export endpoint: the data in the requested format. */
  datatype Export = JsonExport(results: seq<CommandResult>) | CsvExport(csv: string) | TxtExport(text: string)

  /** An HTTP error response. */
  datatype HttpError = HttpError(statusCode: int, detail: string)

  const CsvHeader: string := "profile,success,output,error,duration"

  /** Python's `str(bool)`. */
  function BoolText(b: bool): string {
    if b then "True" else "False"
  }

  /**
   * One CSV row: profile and success quoted as they are, output and error
   * quoted with every double quote doubled, the duration unquoted. `repr`
   * is the float formatting of the duration.
   */
  function CsvRow(r: CommandResult, repr: real -> string): (row: string)
    ensures |row| >= |r.profile| + 3 + |repr(r.duration)|
    ensures row[..|r.profile| + 3] == "\"" + r.profile + "\","
    ensures row[|row| - |repr(r.duration)|..] == repr(r.duration)
  {
    QuoteRaw(r.profile) + (QuoteRaw(BoolText(r.success)) + (Quote(r.output) + (Quote(r.error.GetOr("")) + repr(r.duration))))
  }

  /** A field written between double quotes as it is, then a comma. */
  function QuoteRaw(x: string): string {
    "\"" + x + "\","
  }

  /** A field written between double quotes with its own double quotes doubled, then a comma. */
  function Quote(x: string): string {
    QuoteRaw(EscapeQuotes(x))
  }

  function CsvRows(results: seq<CommandResult>, repr: real -> string): (rows: seq<string>)
    ensures |rows| == |results|
    ensures forall i :: 0 <= i < |rows| ==> rows[i] == CsvRow(results[i], repr)
  {
    seq(|results|, i requires 0 <= i < |results| => CsvRow(results[i], repr))
  }

  /** The text block of one result; `fixed2` is the two-decimal formatting of the duration. */
  function TxtBlock(r: CommandResult, fixed2: real -> string): (lines: seq<string>)
    ensures |lines| == 4 + (if r.output != [] then 1 else 0) + (if Truthy(r.error) then 1 else 0)
    ensures lines[..3] == ["Profile: " + r.profile, "Success: " + BoolText(r.success), "Duration: " + fixed2(r.duration) + "s"]
    ensures r.output != [] ==> lines[3] == "Output:\n" + r.output
    ensures Truthy(r.error) ==> lines[|lines| - 2] == "Error:\n" + r.error.value
    ensures lines[|lines| - 1] == Repeat('-', 50)
  {
    ["Profile: " + r.profile, "Success: " + BoolText(r.success), "Duration: " + fixed2(r.duration) + "s"]
    + (if r.output != [] then ["Output:\n" + r.output] else [])
    + (if Truthy(r.error) then ["Error:\n" + r.error.value] else [])
    + [Repeat('-', 50)]
  }

  function TxtLines(results: seq<CommandResult>, fixed2: real -> string): (lines: seq<string>)
    ensures |lines| >= 4 * |results|
    decreases |results|
  {
    if results == [] then []
    else TxtLines(results[..|results| - 1], fixed2) + TxtBlock(results[|results| - 1], fixed2)
  }

  /** What `export_results` returns for a format: the three known formats, or HTTP 400. */
  function Exported(request: ExportRequest, results: seq<CommandResult>, repr: real -> string, fixed2: real -> string)
    : (r: Result<Export, HttpError>)
    ensures r.Failure? <==> request.format !in {"json", "csv", "txt"}
    ensures r.Failure? ==> r.error == HttpError(400, "Unsupported export format")
    ensures request.format == "json" ==> r == Success(JsonExport(results))
  {
    if request.format == "json" then Success(JsonExport(results))
    else if request.format == "csv" then Success(CsvExport(Join([CsvHeader] + CsvRows(results, repr), "\n")))
    else if request.format == "txt" then Success(TxtExport(Join(TxtLines(results, fixed2), "\n")))
    else Failure(HttpError(400, "Unsupported export format"))
  }

  /** Python's `export_results`. */
  method ExportResults(request: ExportRequest, results: seq<CommandResult>, repr: real -> string, fixed2: real -> string)
    returns (r: Result<Export, HttpError>)
    ensures r == Exported(request, results, repr, fixed2)
  {
    if request.format == "json" {
      return Success(JsonExport(results));
    } else if request.format == "csv" {
      var csvLines := CollectCsvLines(results, repr);
      return Success(CsvExport(Join(csvLines, "\n")));
    } else if request.format == "txt" {
      var textLines := CollectTextLines(results, fixed2);
      return Success(TxtExport(Join(textLines, "\n")));
    } else {
      return Failure(HttpError(400, "Unsupported export format"));
    }
  }

  /** The loop of the CSV branch: the header, then one row per result. */
  method CollectCsvLines(results: seq<CommandResult>, repr: real -> string) returns (csvLines: seq<string>)
    ensures csvLines == [CsvHeader] + CsvRows(results, repr)
  {
    csvLines := [CsvHeader];
    var i := 0;
    while i < |results|
      invariant 0 <= i <= |results|
      invariant csvLines == [CsvHeader] + CsvRows(results[..i], repr)
    {
      assert CsvRows(results[..i + 1], repr) == CsvRows(results[..i], repr) + [CsvRow(results[i], repr)];
      csvLines := csvLines + [CsvRow(results[i], repr)];
      i := i + 1;
    }
    assert results[..i] == results;
  }

  /** The loop of the text branch: one block per result. */
  method CollectTextLines(results: seq<CommandResult>, fixed2: real -> string) returns (textLines: seq<string>)
    ensures textLines == TxtLines(results, fixed2)
  {
    textLines := [];
    var i := 0;
    while i < |results|
      invariant 0 <= i <= |results|
      invariant textLines == TxtLines(results[..i], fixed2)
    {
      assert results[..i + 1][..i] == results[..i];
      textLines := textLines + TxtBlock(results[i], fixed2);
      i := i + 1;
    }
    assert results[..i] == results;
  }

  /** The fields of a CSV row as read back by a CSV reader, quotes removed and doubled quotes collapsed. */
  datatype CsvFields = CsvFields(profile: string, success: string, output: string, error: string, duration: string)

  /** Reads a quoted field's content up to its closing quote (the opening quote already consumed). */
  function ReadQuoted(s: string): (r: Option<(string, string)>)
    ensures r.Some? ==> |r.value.1| < |s|
    decreases |s|
  {
    if s == [] then None
    else if s[0] == '"' then
      if |s| >= 2 && s[1] == '"' then
        match ReadQuoted(s[2..])
        case None => None
        case Some(p) => Some(("\"" + p.0, p.1))
      else Some(([], s[1..]))
    else
      match ReadQuoted(s[1..])
      case None => None
      case Some(p) => Some(([s[0]] + p.0, p.1))
  }

  /** Reads `"field"` followed by the separator. */
  function ReadField(s: string, sep: string): Option<(string, string)> {
    if s == [] || s[0] != '"' then None
    else match ReadQuoted(s[1..])
      case None => None
      case Some(p) => if sep <= p.1 then Some((p.0, p.1[|sep|..])) else None
  }

  /** Reads a row of four quoted fields and a trailing unquoted one. */
  function ParseRow(row: string): Option<CsvFields> {
    match ReadField(row, ",")
    case None => None
    case Some(f1) =>
      match ReadField(f1.1, ",")
      case None => None
      case Some(f2) =>
        match ReadField(f2.1, ",")
        case None => None
        case Some(f3) =>
          match ReadField(f3.1, ",")
          case None => None
          case Some(f4) => Some(CsvFields(f1.0, f2.0, f3.0, f4.0, f4.1))
  }

  /** The closing quote ends a field when no quote follows it. */
  lemma ReadQuotedClose(rest: string)
    requires rest == [] || rest[0] != '"'
    ensures ReadQuoted(EscapeQuotes([]) + ("\"" + rest)) == Some(([], rest))
  {
    assert EscapeQuotes([]) + ("\"" + rest) == "\"" + rest;
    assert ("\"" + rest)[1..] == rest;
  }

  /** A quote of the field is written doubled and reads back as one quote. */
  lemma ReadQuotedPair(x: string, rest: string)
    requires x != [] && x[0] == '"'
    requires ReadQuoted(EscapeQuotes(x[1..]) + ("\"" + rest)) == Some((x[1..], rest))
    ensures ReadQuoted(EscapeQuotes(x) + ("\"" + rest)) == Some((x, rest))
  {
    var t := EscapeQuotes(x[1..]) + ("\"" + rest);
    ConcatAssoc("\"\"", EscapeQuotes(x[1..]), "\"" + rest);
    var s := "\"\"" + t;
    assert s[0] == '"' && s[1] == '"' && s[2..] == t;
    assert "\"" + x[1..] == x;
  }

  /** Any other character of the field reads back as itself. */
  lemma ReadQuotedPlain(x: string, rest: string)
    requires x != [] && x[0] != '"'
    requires ReadQuoted(EscapeQuotes(x[1..]) + ("\"" + rest)) == Some((x[1..], rest))
    ensures ReadQuoted(EscapeQuotes(x) + ("\"" + rest)) == Some((x, rest))
  {
    var t := EscapeQuotes(x[1..]) + ("\"" + rest);
    ConcatAssoc([x[0]], EscapeQuotes(x[1..]), "\"" + rest);
    var s := [x[0]] + t;
    assert s[0] == x[0] && s[1..] == t;
    assert [x[0]] + x[1..] == x;
  }

  /** An escaped field followed by a closing quote reads back as the original text. */
  lemma {:induction false} ReadEscaped(x: string, rest: string)
    requires rest == [] || rest[0] != '"'
    ensures ReadQuoted(EscapeQuotes(x) + ("\"" + rest)) == Some((x, rest))
  {
    if x == [] {
      ReadQuotedClose(rest);
    } else {
      ReadEscaped(x[1..], rest);
      if x[0] == '"' {
        ReadQuotedPair(x, rest);
      } else {
        ReadQuotedPlain(x, rest);
      }
    }
  }

  lemma ReadFieldEscaped(x: string, rest: string)
    ensures ReadField(Quote(x) + rest, ",") == Some((x, rest))
  {
    var s := Quote(x) + rest;
    assert s[1..] == EscapeQuotes(x) + ("\"" + ("," + rest));
    ReadEscaped(x, "," + rest);
    assert ("," + rest)[1..] == rest;
  }

  /** A text without double quotes is left as it is by the escaping. */
  lemma {:induction false} EscapeWithoutQuotes(x: string)
    requires '"' !in x
    ensures EscapeQuotes(x) == x
  {
    if x != [] {
      EscapeWithoutQuotes(x[1..]);
      assert x == [x[0]] + x[1..];
    }
  }

  /** Four escaped, quoted fields and a trailing one read back as the original fields. */
  lemma ParseEscapedRow(f1: string, f2: string, f3: string, f4: string, last: string)
    ensures ParseRow(Quote(f1) + (Quote(f2) + (Quote(f3) + (Quote(f4) + last)))) == Some(CsvFields(f1, f2, f3, f4, last))
  {
    var rest3 := Quote(f4) + last;
    var rest2 := Quote(f3) + rest3;
    var rest1 := Quote(f2) + rest2;
    ReadFieldEscaped(f1, rest1);
    ReadFieldEscaped(f2, rest2);
    ReadFieldEscaped(f3, rest3);
    ReadFieldEscaped(f4, last);
  }

  /**
   * Reading a CSV row back gives every field of the result: output and error
   * exactly, whatever quotes they hold; the profile when it holds none.
   */
  lemma CsvRowRoundTrip(r: CommandResult, repr: real -> string)
    requires '"' !in r.profile
    ensures ParseRow(CsvRow(r, repr))
         == Some(CsvFields(r.profile, BoolText(r.success), r.output, r.error.GetOr(""), repr(r.duration)))
  {
    var s := BoolText(r.success);
    EscapeWithoutQuotes(r.profile);
    EscapeWithoutQuotes(s);
    assert QuoteRaw(r.profile) == Quote(r.profile) && QuoteRaw(s) == Quote(s);
    ParseEscapedRow(r.profile, s, r.output, r.error.GetOr(""), repr(r.duration));
  }
}
